/** The render pass `SSRRenderPass`: its per-camera setup, its per-frame
    command recording, and the two view-projection registers that give
    the TAA shader last frame's matrix. */
module Pass {
  import opened Frame
  import opened Targets
  import opened Halton
  import opened HiZ
  import opened Blur

  // ---------------------------------------------------------------------
  // The frame plan

  /** The debug view the `switch` in `Execute` draws: hit UV, hit depth or
      hit mask, each into its own target with its own material pass. */
  function DebugBlit(m: DebugMode): (c: Command)
    ensures c.Blit? && c.from.None? && c.pass.Some? && 2 <= c.pass.value <= 4
    ensures c.to == HitUVTex || c.to == HitZTex || c.to == HitMaskTex
  {
    match m
    case Hituv => Blit(None, HitUVTex, Some(2))
    case HitDepth => Blit(None, HitZTex, Some(3))
    case HitMask => Blit(None, HitMaskTex, Some(4))
  }

  /** `DoTAA`: copy the resolved image into the TAA target, upload the
      stored previous matrix, blend with material pass 6, keep the result
      as next frame's history. */
  function TAAPlan(pre: Matrix): (r: seq<Command>)
    ensures SetMatrix(PreMatrixVP, pre) in r
    ensures r[|r| - 1] == CopyTexture(TAACurrTex, TAAPreTex, 0)
  {
    [ Blit(Some(ResolvedTex), TAACurrTex, None),
      SetMatrix(PreMatrixVP, pre),
      Blit(None, TAACurrTex, Some(6)),
      CopyTexture(TAACurrTex, TAAPreTex, 0) ]
  }

  /** The only matrix `DoTAA` uploads is the stored previous one, and the
      TAA blend comes after it, so the blend reads last frame's matrix. */
  lemma TAAUploadPrecedesBlend(pre: Matrix)
    ensures var r := TAAPlan(pre);
      forall i, j | 0 <= i < |r| && 0 <= j < |r| && r[i].SetMatrix? && r[j] == Blit(None, TAACurrTex, Some(6)) ::
        r[i] == SetMatrix(PreMatrixVP, pre) && i < j
  {
  }

  /** The commands before the depth chain: the camera copy and the depth
      copy into `_HiZDepthTex0` (material pass 0). */
  const Head: seq<Command> := [Blit(Some(CameraTarget), SourceTex, None), Blit(None, HiZDepthTex(0), Some(0))]

  /** The commands after the blur: composite with material pass 7 and copy
      the result to the camera. */
  const Tail: seq<Command> := [Blit(None, CombineTex, Some(7)), Blit(Some(CombineTex), CameraTarget, None)]

  /** Ray march, the debug view, then the resolve (material pass 5). */
  function Middle(mode: DebugMode): seq<Command>
  {
    [DrawRayMarch, DebugBlit(mode), Blit(None, ResolvedTex, Some(5))]
  }

  /** Everything `Execute` records once the renderer and the material are
      present. The debug view is one command among the others: resolve,
      TAA, blur and combine follow it whatever the mode. */
  function ExecutePlan(tg: GroupSizes, s: PassSetting, mode: DebugMode, base: Size,
                       hizLoaded: bool, blurLoaded: bool, pre: Matrix): (r: seq<Command>)
    requires ValidGroupSizes(tg) && ValidSetting(s)
    ensures |r| >= |Head| + |Middle(mode)| + |TAAPlan(pre)| + |Tail|
    ensures r[0] == Blit(Some(CameraTarget), SourceTex, None)
    ensures r[|r| - 1] == Blit(Some(CombineTex), CameraTarget, None)
  {
    RadiusRange(s);
    Head
      + HiZPlan(tg, base, hizLoaded)
      + Middle(mode)
      + TAAPlan(pre)
      + BlurPlan(tg, base, blurLoaded, DownSampleCount(GetRadius(s)), BlitsBack(s))
      + Tail
  }

  /** Where the debug view sits in the plan. */
  function DebugIndex(tg: GroupSizes, base: Size, hizLoaded: bool): nat
    requires ValidGroupSizes(tg)
  {
    |Head| + |HiZPlan(tg, base, hizLoaded)| + 1
  }

  /** The debug switch changes one command of the frame and nothing else:
      plans for two modes have the same length, differ at most at the
      debug view, and hold each mode's own view there. */
  lemma DebugSwitchIsLocal(tg: GroupSizes, s: PassSetting, m1: DebugMode, m2: DebugMode, base: Size,
                           hizLoaded: bool, blurLoaded: bool, pre: Matrix)
    requires ValidGroupSizes(tg) && ValidSetting(s)
    ensures var p1 := ExecutePlan(tg, s, m1, base, hizLoaded, blurLoaded, pre);
      var p2 := ExecutePlan(tg, s, m2, base, hizLoaded, blurLoaded, pre);
      var i := DebugIndex(tg, base, hizLoaded);
      && |p1| == |p2| && i < |p1|
      && p1[i] == DebugBlit(m1) && p2[i] == DebugBlit(m2)
      && forall k | 0 <= k < |p1| && k != i :: p1[k] == p2[k]
  {
    RadiusRange(s);
    var before := Head + HiZPlan(tg, base, hizLoaded);
    var after := TAAPlan(pre) + BlurPlan(tg, base, blurLoaded, DownSampleCount(GetRadius(s)), BlitsBack(s)) + Tail;
    PlanShape(tg, s, m1, base, hizLoaded, blurLoaded, pre, before, after);
    PlanShape(tg, s, m2, base, hizLoaded, blurLoaded, pre, before, after);
    AgreeOutsideMiddle(before, Middle(m1), Middle(m2), after);
  }

  /** Two sequences that differ only in the middle entry of a three-entry
      block agree everywhere else. */
  lemma AgreeOutsideMiddle<T>(before: seq<T>, m1: seq<T>, m2: seq<T>, after: seq<T>)
    requires |m1| == 3 && |m2| == 3 && m1[0] == m2[0] && m1[2] == m2[2]
    ensures |before + m1 + after| == |before + m2 + after|
    ensures (before + m1 + after)[|before| + 1] == m1[1]
    ensures (before + m2 + after)[|before| + 1] == m2[1]
    ensures forall k | 0 <= k < |before + m1 + after| && k != |before| + 1 ::
      (before + m1 + after)[k] == (before + m2 + after)[k]
  {
  }

  /** The plan for a mode, as the part before the ray march, the middle
      three commands, and the part after the resolve. */
  lemma PlanShape(tg: GroupSizes, s: PassSetting, m: DebugMode, base: Size, hizLoaded: bool, blurLoaded: bool,
                  pre: Matrix, before: seq<Command>, after: seq<Command>)
    requires ValidGroupSizes(tg) && ValidSetting(s) && GetRadius(s) >= 0.0
    requires before == Head + HiZPlan(tg, base, hizLoaded)
    requires after == TAAPlan(pre) + BlurPlan(tg, base, blurLoaded, DownSampleCount(GetRadius(s)), BlitsBack(s)) + Tail
    ensures ExecutePlan(tg, s, m, base, hizLoaded, blurLoaded, pre) == before + Middle(m) + after
  {
    var blur := BlurPlan(tg, base, blurLoaded, DownSampleCount(GetRadius(s)), BlitsBack(s));
    ConcatAssoc(before + Middle(m), TAAPlan(pre), blur);
    ConcatAssoc(before + Middle(m), TAAPlan(pre) + blur, Tail);
  }

  /** Resolve, TAA and combine are recorded in every debug mode. */
  lemma DebugSwitchKeepsPasses(tg: GroupSizes, s: PassSetting, m: DebugMode, base: Size,
                               hizLoaded: bool, blurLoaded: bool, pre: Matrix)
    requires ValidGroupSizes(tg) && ValidSetting(s)
    ensures var p := ExecutePlan(tg, s, m, base, hizLoaded, blurLoaded, pre);
      && DebugBlit(m) in p
      && Blit(None, ResolvedTex, Some(5)) in p
      && Blit(None, TAACurrTex, Some(6)) in p
      && SetMatrix(PreMatrixVP, pre) in p
      && Blit(None, CombineTex, Some(7)) in p
      && Blit(Some(CombineTex), CameraTarget, None) in p
  {
    RadiusRange(s);
    var before := Head + HiZPlan(tg, base, hizLoaded);
    var after := TAAPlan(pre) + BlurPlan(tg, base, blurLoaded, DownSampleCount(GetRadius(s)), BlitsBack(s)) + Tail;
    PlanShape(tg, s, m, base, hizLoaded, blurLoaded, pre, before, after);
    var mid, taa := Middle(m), TAAPlan(pre);
    assert mid[1] == DebugBlit(m) && mid[2] == Blit(None, ResolvedTex, Some(5));
    assert taa[1] == SetMatrix(PreMatrixVP, pre) && taa[2] == Blit(None, TAACurrTex, Some(6));
    assert Tail[0] == Blit(None, CombineTex, Some(7)) && Tail[1] == Blit(Some(CombineTex), CameraTarget, None);
  }

  // ---------------------------------------------------------------------
  // The frame against the live targets

  /** After a complete setup the depth chain can start: only its first
      level exists. */
  lemma SetupReadyForChain(s: PassSetting, base: Size, live: Live)
    requires ValidSetting(s) && SetupLive(s, base, live)
    ensures ReadyForChain(live)
  {
    SetupIdsMember(HiZDepthTex(0));
    forall k | 1 <= k < MaxMipMapLevels
      ensures HiZDepthTex(k) !in live
    {
      SetupIdsMember(HiZDepthTex(k));
    }
  }

  /** After a complete setup the blur can start: no blur target exists
      yet, and the TAA target and the camera target are live. */
  lemma SetupReadyForBlur(s: PassSetting, base: Size, live: Live)
    requires ValidSetting(s) && SetupLive(s, base, live)
    ensures ReadyForBlur(live)
  {
    SetupIdsMember(TAACurrTex);
    SetupIdsMember(KawaseRT);
    forall j
      ensures KawaseLevel(j) !in live
    {
      SetupIdsMember(KawaseLevel(j));
    }
  }

  /** What the frame needs of the live targets: the depth chain and the
      blur can start, and every other target it touches is live. */
  ghost predicate FrameReady(live: Live)
  {
    && ReadyForChain(live) && ReadyForBlur(live)
    && CameraTarget in live && SourceTex in live && ResolvedTex in live
    && SSRHitData in live && SSRHitMask in live
    && HitUVTex in live && HitZTex in live && HitMaskTex in live
    && TAACurrTex in live && TAAPreTex in live && CombineTex in live
  }

  /** A complete setup leaves the frame ready. */
  lemma SetupFrameReady(s: PassSetting, base: Size, live: Live)
    requires ValidSetting(s) && SetupLive(s, base, live)
    ensures FrameReady(live)
  {
    SetupReadyForChain(s, base, live);
    SetupReadyForBlur(s, base, live);
    SetupIdsMember(SourceTex);
    SetupIdsMember(SSRHitData);
    SetupIdsMember(SSRHitMask);
    SetupIdsMember(ResolvedTex);
    SetupIdsMember(HitUVTex);
    SetupIdsMember(HitZTex);
    SetupIdsMember(HitMaskTex);
    SetupIdsMember(TAAPreTex);
    SetupIdsMember(CombineTex);
  }

  /** The commands up to and including `DoTAA` leave the live targets as
      they found them. */
  lemma FrontRun(tg: GroupSizes, mode: DebugMode, base: Size, hizLoaded: bool, pre: Matrix, live: Live)
    requires ValidGroupSizes(tg) && FrameReady(live)
    ensures Run(tg, live, Head + HiZPlan(tg, base, hizLoaded) + Middle(mode) + TAAPlan(pre)) == Some(live)
  {
    var hiz := HiZPlan(tg, base, hizLoaded);
    TouchesLiveRun(tg, live, Head);
    HiZRun(tg, base, live, hizLoaded);
    TouchesLiveRun(tg, live, Middle(mode));
    TouchesLiveRun(tg, live, TAAPlan(pre));
    RunAppend(tg, live, Head, hiz);
    RunAppend(tg, live, Head + hiz, Middle(mode));
    RunAppend(tg, live, Head + hiz + Middle(mode), TAAPlan(pre));
  }

  /** The combine pass and the copy to the camera leave the live targets
      after the blur as they are. */
  lemma TailRun(tg: GroupSizes, base: Size, live: Live, d: nat, blitBack: bool)
    requires CombineTex in live && CameraTarget in live
    ensures Run(tg, AfterBlur(base, live, d, blitBack), Tail) == Some(AfterBlur(base, live, d, blitBack))
  {
    var after := AfterBlur(base, live, d, blitBack);
    assert CombineTex in after && CameraTarget in after;
    TouchesLiveRun(tg, after, Tail);
  }

  /** The frame from ready targets: every command is legal, and afterwards
      the live targets are the earlier ones plus what the blur leaves. */
  lemma ReadyRun(tg: GroupSizes, s: PassSetting, mode: DebugMode, base: Size,
                 hizLoaded: bool, blurLoaded: bool, pre: Matrix, live: Live)
    requires ValidGroupSizes(tg) && ValidSetting(s) && FrameReady(live)
    ensures GetRadius(s) >= 0.0
    ensures Run(tg, live, ExecutePlan(tg, s, mode, base, hizLoaded, blurLoaded, pre))
         == Some(AfterBlur(base, live, DownSampleCount(GetRadius(s)), BlitsBack(s)))
  {
    RadiusRange(s);
    var d := DownSampleCount(GetRadius(s));
    var front := Head + HiZPlan(tg, base, hizLoaded) + Middle(mode) + TAAPlan(pre);
    var blur := BlurPlan(tg, base, blurLoaded, d, BlitsBack(s));
    var after := AfterBlur(base, live, d, BlitsBack(s));
    FrontRun(tg, mode, base, hizLoaded, pre, live);
    BlurRun(tg, base, blurLoaded, live, d, BlitsBack(s));
    TailRun(tg, base, live, d, BlitsBack(s));
    RunAppend(tg, live, front, blur);
    RunAppend(tg, live, front + blur, Tail);
  }

  /** A frame misuses no target: after a complete setup, every command of
      `Execute` is legal, and the targets live afterwards are the setup
      targets plus what the blur leaves allocated. */
  lemma ExecuteRun(tg: GroupSizes, s: PassSetting, mode: DebugMode, base: Size,
                   hizLoaded: bool, blurLoaded: bool, pre: Matrix, live: Live)
    requires ValidGroupSizes(tg) && ValidSetting(s) && SetupLive(s, base, live)
    ensures GetRadius(s) >= 0.0
    ensures Run(tg, live, ExecutePlan(tg, s, mode, base, hizLoaded, blurLoaded, pre))
         == Some(AfterBlur(base, live, DownSampleCount(GetRadius(s)), BlitsBack(s)))
  {
    SetupFrameReady(s, base, live);
    ReadyRun(tg, s, mode, base, hizLoaded, blurLoaded, pre, live);
  }

  // ---------------------------------------------------------------------
  // The view-projection history

  /** The two matrix registers: `_Pre_Matrix_VP` and `_Curr_Matrix_VP`. */
  datatype History = History(pre: Matrix, curr: Matrix)

  /** One camera frame as far as the history is concerned: the camera's
      view-projection matrix, and whether the renderer, the material and
      the blue-noise texture are all present (only then does setup finish
      and `DoTAA` run). */
  datatype FrameInput = FrameInput(vp: Matrix, active: bool)

  /** A frame's effect on the registers: setup stores the new matrix in
      `curr`; `DoTAA` uploads `pre` and then copies `curr` into it. */
  function FrameStep(h: History, f: FrameInput): (r: History)
    ensures h.pre == h.curr ==> r.pre == r.curr
    ensures r != h ==> f.active && r.pre == f.vp
  {
    if f.active then History(f.vp, f.vp) else h
  }

  /** The registers after a run of frames, from the zero matrices a new
      pass starts with. */
  function Replay(frames: seq<FrameInput>): (r: History)
    ensures r.pre == r.curr
  {
    if frames == [] then History(ZeroMatrix, ZeroMatrix)
    else FrameStep(Replay(frames[..|frames| - 1]), frames[|frames| - 1])
  }

  /** The matrix of the latest active frame, or the zero matrix when there
      is none. */
  function LatestActive(frames: seq<FrameInput>): (m: Matrix)
    ensures m == ZeroMatrix || exists k | 0 <= k < |frames| :: frames[k].active && frames[k].vp == m
  {
    if frames == [] then ZeroMatrix
    else if frames[|frames| - 1].active then frames[|frames| - 1].vp
    else LatestActive(frames[..|frames| - 1])
  }

  /** The one-frame lag: the matrix `DoTAA` uploads in a frame is the
      matrix of the latest earlier frame that reached `DoTAA`, or the zero
      matrix before the first one. */
  lemma {:induction false} UploadIsLatestEarlier(frames: seq<FrameInput>)
    ensures Replay(frames).pre == LatestActive(frames)
    ensures Replay(frames).curr == LatestActive(frames)
  {
    if frames != [] {
      UploadIsLatestEarlier(frames[..|frames| - 1]);
    }
  }

  /** Before any frame reaches `DoTAA` the uploaded matrix is the zero
      matrix. */
  lemma {:induction false} UploadBeforeAnyActive(frames: seq<FrameInput>)
    requires forall j | 0 <= j < |frames| :: !frames[j].active
    ensures Replay(frames).pre == ZeroMatrix
  {
    if frames != [] {
      var init := frames[..|frames| - 1];
      assert forall j | 0 <= j < |init| :: init[j] == frames[j];
      UploadBeforeAnyActive(init);
    }
  }

  /** The uploaded matrix is that of the active frame `k` when no later
      frame is active. */
  lemma {:induction false} UploadIsLastActive(frames: seq<FrameInput>, k: nat)
    requires k < |frames| && frames[k].active
    requires forall j | k < j < |frames| :: !frames[j].active
    ensures Replay(frames).pre == frames[k].vp
  {
    var init := frames[..|frames| - 1];
    if k < |frames| - 1 {
      assert forall j | 0 <= j < |init| :: init[j] == frames[j];
      UploadIsLastActive(init, k);
    }
  }

  /** The uploaded matrix is never the frame's own, as long as that
      matrix is new: different from the zero matrix and from every
      earlier active frame's. */
  lemma UploadIsNotCurrent(frames: seq<FrameInput>, f: FrameInput)
    requires f.vp != ZeroMatrix
    requires forall k | 0 <= k < |frames| && frames[k].active :: frames[k].vp != f.vp
    ensures Replay(frames).pre != f.vp
  {
    UploadIsLatestEarlier(frames);
  }

  // ---------------------------------------------------------------------
  // The pass

  class SSRRenderPass {
    var setting: PassSetting
    var debugMode: DebugMode
    var taa: TAA
    /** `_Renderer != null`. */
    var rendererSet: bool
    /** `_material != null`: whether `Elysia/SSR` was found. */
    var materialLoaded: bool
    /** `_blueNoiseTex != null`: whether the blue-noise texture was found. */
    var blueNoiseLoaded: bool
    /** The width and height of `_descriptor`, which `_screenSize` repeats. */
    var base: Size
    var preMatrixVP: Matrix
    var currMatrixVP: Matrix

    ghost predicate Valid()
      reads this
    {
      ValidSetting(setting)
    }

    function Registers(): History
      reads this
    {
      History(preMatrixVP, currMatrixVP)
    }

    /** The constructor keeps the settings, copies the debug mode, makes
        the jitter generator and the material and loads the blue-noise
        texture; both matrices start as the zero matrix. */
    constructor (s: PassSetting, materialFound: bool, blueNoiseFound: bool)
      requires ValidSetting(s)
      ensures Valid()
      ensures setting == s && debugMode == s.debugMode && fresh(taa)
      ensures !rendererSet && materialLoaded == materialFound && blueNoiseLoaded == blueNoiseFound
      ensures Registers() == History(ZeroMatrix, ZeroMatrix)
    {
      setting := s;
      debugMode := s.debugMode;
      taa := new TAA();
      rendererSet := false;
      materialLoaded := materialFound;
      blueNoiseLoaded := blueNoiseFound;
      base := Size(0, 0);
      preMatrixVP := ZeroMatrix;
      currMatrixVP := ZeroMatrix;
    }

    /** `Setup`: keeps the renderer. `AddRenderPasses` casts it to a
        `UniversalRenderer` first, and that cast throws rather than yield
        null, so `rendererPresent` is false only for a pass whose `Setup`
        has not run. */
    method Setup(rendererPresent: bool)
      modifies this
      ensures rendererSet == rendererPresent
      ensures setting == old(setting) && debugMode == old(debugMode)
      ensures materialLoaded == old(materialLoaded) && blueNoiseLoaded == old(blueNoiseLoaded)
      ensures base == old(base) && Registers() == old(Registers())
    {
      rendererSet := rendererPresent;
    }

    /** `InitRTI`: one temporary at the base size divided by the factor. */
    static method InitRTI(cmd: CommandBuffer, id: TexId, base: Size, factor: int)
      requires factor >= 1
      modifies cmd
      ensures cmd.commands == old(cmd.commands) + [Alloc(id, TargetSize(base, factor))]
    {
      cmd.GetTemporaryRT(id, TargetSize(base, factor));
    }

    /** `InitRT`: a texture taken from the pool, then bound to the
        material, which throws when there is none (`ok` is false). */
    static method InitRT(cmd: CommandBuffer, id: TexId, base: Size, factor: int, materialLoaded: bool)
      returns (ok: bool)
      requires factor >= 1
      modifies cmd
      ensures ok == materialLoaded
      ensures cmd.commands == old(cmd.commands) + [Alloc(id, TargetSize(base, factor))]
    {
      cmd.GetTemporaryTexture(id, TargetSize(base, factor));
      ok := materialLoaded;
    }

    /** The `InitRTI`/`InitRT` calls of `OnCameraSetup`, in order. The
        second `InitRT` call cannot throw: the first one would have. */
    static method CreateTargets(cmd: CommandBuffer, s: PassSetting, base: Size, materialLoaded: bool)
      returns (ok: bool)
      requires ValidSetting(s)
      modifies cmd
      ensures ok == materialLoaded
      ensures cmd.commands == old(cmd.commands) + SetupAllocs(s, base, if ok then |SetupIds| else 3)
    {
      ghost var pre := cmd.commands;
      assert pre == pre + SetupAllocs(s, base, 0);
      InitRTI(cmd, SourceTex, base, 1);
      SetupNext(s, base, pre, 0, SourceTex, 1);
      InitRTI(cmd, HiZDepthTex(0), base, 1);
      SetupNext(s, base, pre, 1, HiZDepthTex(0), 1);
      ok := InitRT(cmd, SSRHitData, base, 1, materialLoaded);
      SetupNext(s, base, pre, 2, SSRHitData, 1);
      if !ok {
        return;
      }
      ok := InitRT(cmd, SSRHitMask, base, 1, materialLoaded);
      SetupNext(s, base, pre, 3, SSRHitMask, 1);
      InitRTI(cmd, HitUVTex, base, 1);
      SetupNext(s, base, pre, 4, HitUVTex, 1);
      InitRTI(cmd, HitZTex, base, 1);
      SetupNext(s, base, pre, 5, HitZTex, 1);
      InitRTI(cmd, HitMaskTex, base, 1);
      SetupNext(s, base, pre, 6, HitMaskTex, 1);
      InitRTI(cmd, ResolvedTex, base, s.downSample);
      SetupNext(s, base, pre, 7, ResolvedTex, s.downSample);
      InitRTI(cmd, TAACurrTex, base, 1);
      SetupNext(s, base, pre, 8, TAACurrTex, 1);
      InitRTI(cmd, TAAPreTex, base, 1);
      SetupNext(s, base, pre, 9, TAAPreTex, 1);
      InitRTI(cmd, CombineTex, base, 1);
      SetupNext(s, base, pre, 10, CombineTex, 1);
    }

    /** `OnCameraSetup`: takes the camera size, allocates every target and
        stores the camera's view-projection matrix. `completed` is false
        when it throws: without a renderer, without a material once
        `InitRT` binds, and without the blue-noise texture once its size
        is read, which comes after every allocation and before the matrix
        is stored. */
    method OnCameraSetup(cmd: CommandBuffer, cameraSize: Size, vp: Matrix) returns (completed: bool)
      requires Valid()
      modifies this, cmd
      ensures Valid()
      ensures completed == (old(rendererSet) && old(materialLoaded) && old(blueNoiseLoaded))
      ensures cmd.commands == old(cmd.commands) + SetupPlan(setting, cameraSize, rendererSet, materialLoaded, blueNoiseLoaded, vp)
      ensures base == if rendererSet then cameraSize else old(base)
      ensures Registers() == History(old(preMatrixVP), if completed then vp else old(currMatrixVP))
      ensures setting == old(setting) && debugMode == old(debugMode)
      ensures rendererSet == old(rendererSet) && materialLoaded == old(materialLoaded)
      ensures blueNoiseLoaded == old(blueNoiseLoaded)
    {
      if !rendererSet {
        assert old(cmd.commands) + [] == old(cmd.commands);
        return false;
      }
      base := cameraSize;
      var ok := CreateTargets(cmd, setting, base, materialLoaded);
      if !ok {
        return false;
      }
      if !blueNoiseLoaded {
        return false;
      }
      cmd.SetGlobalMatrix(MatrixVP, vp);
      currMatrixVP := vp;
      completed := true;
    }

    /** `DoTAA`: uploads the stored previous matrix, and only after that
        replaces it by the current one. Nothing happens without a
        material. */
    method DoTAA(cmd: CommandBuffer)
      modifies this, cmd
      ensures cmd.commands == old(cmd.commands) + (if materialLoaded then TAAPlan(old(preMatrixVP)) else [])
      ensures Registers() == if materialLoaded then History(old(currMatrixVP), old(currMatrixVP)) else old(Registers())
      ensures setting == old(setting) && debugMode == old(debugMode) && base == old(base)
      ensures rendererSet == old(rendererSet) && materialLoaded == old(materialLoaded)
      ensures blueNoiseLoaded == old(blueNoiseLoaded)
    {
      if !materialLoaded {
        assert old(cmd.commands) + [] == old(cmd.commands);
        return;
      }
      cmd.BlitTexture(Some(ResolvedTex), TAACurrTex, None);
      cmd.SetGlobalMatrix(PreMatrixVP, preMatrixVP);
      cmd.BlitTexture(None, TAACurrTex, Some(6));
      cmd.CopyTex(TAACurrTex, TAAPreTex, 0);
      preMatrixVP := currMatrixVP;
    }

    /** `Execute`: nothing without a renderer or a material; otherwise the
        whole frame. `hizLoaded` and `blurLoaded` say whether the two
        compute shaders were found; `tg` holds their thread-group sizes. */
    method Execute(cmd: CommandBuffer, tg: GroupSizes, hizLoaded: bool, blurLoaded: bool)
      requires Valid() && ValidGroupSizes(tg)
      modifies this, cmd
      ensures Valid() && GetRadius(setting) >= 0.0
      ensures cmd.commands == old(cmd.commands)
        + (if rendererSet && materialLoaded
           then ExecutePlan(tg, setting, debugMode, base, hizLoaded, blurLoaded, old(preMatrixVP))
           else [])
      ensures Registers() == if rendererSet && materialLoaded then History(old(currMatrixVP), old(currMatrixVP)) else old(Registers())
      ensures setting == old(setting) && debugMode == old(debugMode) && base == old(base)
      ensures rendererSet == old(rendererSet) && materialLoaded == old(materialLoaded)
      ensures blueNoiseLoaded == old(blueNoiseLoaded)
    {
      RadiusRange(setting);
      if !rendererSet || !materialLoaded {
        assert old(cmd.commands) + [] == old(cmd.commands);
        return;
      }
      ghost var h0 := cmd.commands;
      cmd.BlitTexture(Some(CameraTarget), SourceTex, None);
      cmd.BlitTexture(None, HiZDepthTex(0), Some(0));
      ghost var h1 := cmd.commands;
      DoHizDepth(cmd, tg, base, hizLoaded);
      ghost var h2 := cmd.commands;
      cmd.DrawRenderers();
      match debugMode {
        case Hituv => cmd.BlitTexture(None, HitUVTex, Some(2));
        case HitDepth => cmd.BlitTexture(None, HitZTex, Some(3));
        case HitMask => cmd.BlitTexture(None, HitMaskTex, Some(4));
      }
      cmd.BlitTexture(None, ResolvedTex, Some(5));
      ghost var h3 := cmd.commands;
      DoTAA(cmd);
      ghost var h4 := cmd.commands;
      KawaseBlur(cmd, tg, base, blurLoaded, setting);
      ghost var h5 := cmd.commands;
      cmd.BlitTexture(None, CombineTex, Some(7));
      cmd.BlitTexture(Some(CombineTex), CameraTarget, None);
      ExecuteLog(tg, setting, debugMode, base, hizLoaded, blurLoaded, old(preMatrixVP), h0, h1, h2, h3, h4, h5, cmd.commands);
    }
  }

  /** The pieces `Execute` records, put together. */
  lemma ExecuteLog(tg: GroupSizes, s: PassSetting, mode: DebugMode, base: Size, hizLoaded: bool, blurLoaded: bool,
                   pre: Matrix, h0: seq<Command>, h1: seq<Command>, h2: seq<Command>, h3: seq<Command>,
                   h4: seq<Command>, h5: seq<Command>, post: seq<Command>)
    requires ValidGroupSizes(tg) && ValidSetting(s) && GetRadius(s) >= 0.0
    requires h1 == h0 + [Head[0]] + [Head[1]]
    requires h2 == h1 + HiZPlan(tg, base, hizLoaded)
    requires h3 == h2 + [DrawRayMarch] + [DebugBlit(mode)] + [Blit(None, ResolvedTex, Some(5))]
    requires h4 == h3 + TAAPlan(pre)
    requires h5 == h4 + BlurPlan(tg, base, blurLoaded, DownSampleCount(GetRadius(s)), BlitsBack(s))
    requires post == h5 + [Tail[0]] + [Tail[1]]
    ensures post == h0 + ExecutePlan(tg, s, mode, base, hizLoaded, blurLoaded, pre)
  {
    var hiz, taa := HiZPlan(tg, base, hizLoaded), TAAPlan(pre);
    var blur := BlurPlan(tg, base, blurLoaded, DownSampleCount(GetRadius(s)), BlitsBack(s));
    LogConcat(h0, h1, h2, h3, h4, h5, post, Head[0], Head[1], hiz,
              DrawRayMarch, DebugBlit(mode), Blit(None, ResolvedTex, Some(5)), taa, blur, Tail[0], Tail[1]);
    assert ExecutePlan(tg, s, mode, base, hizLoaded, blurLoaded, pre)
        == [Head[0], Head[1]] + hiz + [DrawRayMarch, DebugBlit(mode), Blit(None, ResolvedTex, Some(5))]
           + taa + blur + [Tail[0], Tail[1]];
  }

  /** A log extended piece by piece holds the pieces in order. */
  lemma LogConcat<T>(h0: seq<T>, h1: seq<T>, h2: seq<T>, h3: seq<T>, h4: seq<T>, h5: seq<T>, post: seq<T>,
                     a0: T, a1: T, b: seq<T>, c0: T, c1: T, c2: T, d: seq<T>, e: seq<T>, f0: T, f1: T)
    requires h1 == h0 + [a0] + [a1] && h2 == h1 + b && h3 == h2 + [c0] + [c1] + [c2]
    requires h4 == h3 + d && h5 == h4 + e && post == h5 + [f0] + [f1]
    ensures post == h0 + ([a0, a1] + b + [c0, c1, c2] + d + e + [f0, f1])
  {
    var a, c, f := [a0, a1], [c0, c1, c2], [f0, f1];
    assert h1 == h0 + a && h3 == h2 + c && post == h5 + f;
    ConcatAssoc(h0, a, b);
    ConcatAssoc(h0, a + b, c);
    ConcatAssoc(h0, a + b + c, d);
    ConcatAssoc(h0, a + b + c + d, e);
    ConcatAssoc(h0, a + b + c + d + e, f);
  }

  /** One camera frame as the renderer drives the pass: setup, then
      `Execute`. An exception out of `OnCameraSetup` leaves the renderer's
      setup loop, so that camera is not executed. The registers move
      exactly as `FrameStep` says, and an active frame uploads the matrix
      the registers held before it. */
  method RenderCamera(pass: SSRRenderPass, cmd: CommandBuffer, tg: GroupSizes, cameraSize: Size, vp: Matrix,
                      hizLoaded: bool, blurLoaded: bool)
    requires pass.Valid() && ValidGroupSizes(tg)
    modifies pass, cmd
    ensures pass.Valid()
    ensures pass.setting == old(pass.setting) && pass.debugMode == old(pass.debugMode)
    ensures pass.rendererSet == old(pass.rendererSet) && pass.materialLoaded == old(pass.materialLoaded)
    ensures pass.blueNoiseLoaded == old(pass.blueNoiseLoaded)
    ensures pass.base == if pass.rendererSet then cameraSize else old(pass.base)
    ensures cmd.commands == old(cmd.commands)
      + SetupPlan(pass.setting, cameraSize, pass.rendererSet, pass.materialLoaded, pass.blueNoiseLoaded, vp)
      + (if pass.rendererSet && pass.materialLoaded && pass.blueNoiseLoaded
         then ExecutePlan(tg, pass.setting, pass.debugMode, pass.base, hizLoaded, blurLoaded, old(pass.preMatrixVP))
         else [])
    ensures pass.Registers() == FrameStep(old(pass.Registers()),
      FrameInput(vp, pass.rendererSet && pass.materialLoaded && pass.blueNoiseLoaded))
    ensures pass.rendererSet && pass.materialLoaded && pass.blueNoiseLoaded ==>
      SetMatrix(PreMatrixVP, old(pass.preMatrixVP)) in cmd.commands[|old(cmd.commands)|..]
  {
    ghost var h0 := cmd.commands;
    var completed := pass.OnCameraSetup(cmd, cameraSize, vp);
    ghost var setup := SetupPlan(pass.setting, cameraSize, pass.rendererSet, pass.materialLoaded, pass.blueNoiseLoaded, vp);
    ghost var h1 := cmd.commands;
    if completed {
      pass.Execute(cmd, tg, hizLoaded, blurLoaded);
      ghost var frame := ExecutePlan(tg, pass.setting, pass.debugMode, pass.base, hizLoaded, blurLoaded, old(pass.preMatrixVP));
      DebugSwitchKeepsPasses(tg, pass.setting, pass.debugMode, pass.base, hizLoaded, blurLoaded, old(pass.preMatrixVP));
      FrameLog(h0, h1, cmd.commands, setup, frame, SetMatrix(PreMatrixVP, old(pass.preMatrixVP)));
    } else {
      assert h1 == h0 + setup + [];
    }
  }

  /** A frame's log is the setup log followed by the execute log, and
      whatever the execute log holds lies in the frame's part. */
  lemma FrameLog<T>(h0: seq<T>, h1: seq<T>, post: seq<T>, a: seq<T>, b: seq<T>, x: T)
    requires h1 == h0 + a && post == h1 + b && x in b
    ensures post == h0 + a + b && x in post[|h0|..]
  {
    assert post[|h0|..] == a + b;
  }
}
