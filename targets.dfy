/** The pass settings (`SSRRF.PassSetting`) and the render targets
    `OnCameraSetup` allocates through `InitRTI`/`InitRT`: which targets, in
    which order, and at which size. */
module Targets {
  import opened Arith
  import opened Frame

  datatype DebugMode = Hituv | HitDepth | HitMask

  /** The settings the modelled core reads. Ray-march and TAA tuning values
      only reach material uniforms and are left out. */
  datatype PassSetting = PassSetting(
    downSample: int,
    blurIntensity: real,
    blurMaxRadius: real,
    debugMode: DebugMode)

  /** The inspector ranges of the settings (`[Range]` attributes). */
  predicate ValidSetting(s: PassSetting)
  {
    && 1 <= s.downSample <= 10
    && 0.0 <= s.blurIntensity <= 1.0
    && 0.0 <= s.blurMaxRadius <= 255.0
  }

  /** `GetRadius`: blur strength times maximum radius, exact over the reals. */
  function GetRadius(s: PassSetting): (r: real)
    ensures r == 0.0 <==> s.blurIntensity == 0.0 || s.blurMaxRadius == 0.0
  {
    s.blurIntensity * s.blurMaxRadius
  }

  lemma NonNegProduct(x: real, y: real)
    requires x >= 0.0 && y >= 0.0
    ensures x * y >= 0.0
  {
  }

  lemma ProductBounds(a: real, b: real, ub: real)
    requires 0.0 <= a <= 1.0 && 0.0 <= b <= ub
    ensures 0.0 <= a * b <= ub
  {
    NonNegProduct(a, b);
    NonNegProduct(1.0 - a, b);
    assert a * b == b - (1.0 - a) * b;
  }

  /** Within the inspector ranges the radius lies in [0, 255]. */
  lemma RadiusRange(s: PassSetting)
    requires ValidSetting(s)
    ensures 0.0 <= GetRadius(s) <= 255.0
  {
    ProductBounds(s.blurIntensity, s.blurMaxRadius, 255.0);
  }

  /** `downSampleCount = FloorToInt(log2(radius + 1))`, computed exactly: the
      integer part of a base-2 logarithm of a real at least 1 only depends
      on the integer part of that real. */
  function DownSampleCount(radius: real): (n: nat)
    requires radius >= 0.0
    ensures Pow(2, n) as real <= radius + 1.0 < Pow(2, n + 1) as real
  {
    var f := radius.Floor;
    var n := FloorLog2(f + 1);
    assert (f + 1) as real <= radius + 1.0 < (f + 2) as real;
    n
  }

  /** The bounds of `DownSampleCount` determine it. */
  lemma DownSampleCountUnique(radius: real, n: nat)
    requires radius >= 0.0
    requires Pow(2, n) as real <= radius + 1.0 < Pow(2, n + 1) as real
    ensures n == DownSampleCount(radius)
  {
    var f := radius.Floor;
    assert Pow(2, n) <= f + 1 < Pow(2, n + 1);
    FloorLog2Unique(f + 1, n);
  }

  /** Within the inspector ranges the pyramid is at most 8 levels deep
      (2^8 = 256 = 255 + 1, so depth 8 is reached only at radius 255), and
      a zero radius gives no extra level. */
  lemma DownSampleCountRange(s: PassSetting)
    requires ValidSetting(s)
    ensures GetRadius(s) >= 0.0 && DownSampleCount(GetRadius(s)) <= 8
    ensures GetRadius(s) == 0.0 ==> DownSampleCount(GetRadius(s)) == 0
  {
    RadiusRange(s);
    var n := DownSampleCount(GetRadius(s));
    if n > 8 {
      PowMonotone(2, 9, n);
    }
    if GetRadius(s) == 0.0 {
      DownSampleCountUnique(0.0, 0);
    }
  }

  /** Half intensity with a maximum radius of 32 gives radius 16, and
      2^4 <= 17 < 2^5 gives four downsample steps beyond the first. */
  lemma DownSampleCountExample(s: PassSetting)
    requires s.blurIntensity == 0.5 && s.blurMaxRadius == 32.0
    ensures GetRadius(s) == 16.0 && DownSampleCount(GetRadius(s)) == 4
  {
    assert Pow(2, 4) == 16 && Pow(2, 5) == 32;
    DownSampleCountUnique(16.0, 4);
  }

  /** The condition under which the blurred result is copied back into the
      TAA target and `_KawaseRT` is released. */
  predicate BlitsBack(s: PassSetting)
  {
    s.blurIntensity != 0.0 && s.blurMaxRadius != 0.0
  }

  /** Whenever the blur is not copied back the radius is 0, so the pyramid
      has the single level of the `downSampleCount == 0` branch. */
  lemma NoBlitBackMeansSingleLevel(s: PassSetting)
    requires ValidSetting(s) && !BlitsBack(s)
    ensures GetRadius(s) == 0.0 && DownSampleCount(GetRadius(s)) == 0
  {
    DownSampleCountRange(s);
  }

  /** The size `InitRTI`/`InitRT` give a target: the base size divided by
      the downsample factor with C#'s integer division (the operands are
      non-negative, so it rounds down). */
  function TargetSize(base: Size, factor: int): (r: Size)
    requires factor >= 1
    ensures r.width * factor <= base.width < (r.width + 1) * factor
    ensures r.height * factor <= base.height < (r.height + 1) * factor
  {
    Size(base.width / factor, base.height / factor)
  }

  /** The floor-division bounds determine `TargetSize`. */
  lemma TargetSizeUnique(base: Size, factor: int, r: Size)
    requires factor >= 1
    requires r.width * factor <= base.width < (r.width + 1) * factor
    requires r.height * factor <= base.height < (r.height + 1) * factor
    ensures r == TargetSize(base, factor)
  {
    FloorDivUnique(base.width, factor, r.width);
    FloorDivUnique(base.height, factor, r.height);
  }

  /** The targets `OnCameraSetup` allocates, in call order. */
  const SetupIds: seq<TexId> := [
    SourceTex, HiZDepthTex(0), SSRHitData, SSRHitMask, HitUVTex, HitZTex, HitMaskTex,
    ResolvedTex, TAACurrTex, TAAPreTex, CombineTex]

  /** Which targets are setup targets, case by case. */
  lemma SetupIdsMember(x: TexId)
    ensures x in SetupIds <==>
      || x == SourceTex || x == HiZDepthTex(0) || x == SSRHitData || x == SSRHitMask
      || x == HitUVTex || x == HitZTex || x == HitMaskTex
      || x == ResolvedTex || x == TAACurrTex || x == TAAPreTex || x == CombineTex
  {
    if x in SetupIds {
      var k :| 0 <= k < |SetupIds| && SetupIds[k] == x;
    }
  }

  /** The downsample factor each setup target is created with: only the
      resolved target uses `downSample`. */
  function SetupFactor(s: PassSetting, id: TexId): int
  {
    if id == ResolvedTex then s.downSample else 1
  }

  /** The size of a setup target for a camera descriptor of size `base`. */
  function SetupSize(s: PassSetting, base: Size, id: TexId): (r: Size)
    requires s.downSample >= 1
    ensures id != ResolvedTex ==> r == base
  {
    TargetSize(base, SetupFactor(s, id))
  }

  /** The setup allocations for the first `n` setup targets. */
  function SetupAllocs(s: PassSetting, base: Size, n: nat): (cmds: seq<Command>)
    requires s.downSample >= 1 && n <= |SetupIds|
    ensures |cmds| == n
  {
    seq(n, k requires 0 <= k < n => Alloc(SetupIds[k], SetupSize(s, base, SetupIds[k])))
  }

  /** Any prefix of the setup allocations allocates the first `n` setup
      targets, in call order, each once and none of them the camera
      target. */
  lemma SetupAllocsFresh(s: PassSetting, base: Size, n: nat)
    requires s.downSample >= 1 && n <= |SetupIds|
    ensures FreshAllocs(map[CameraTarget := base], SetupAllocs(s, base, n))
    ensures CommandIds(SetupAllocs(s, base, n)) == SetupIds[..n]
  {
    SetupIdsDistinct();
  }

  /** The target sizes of one camera: with `downSample == 2` and a 1920x1080
      camera the resolved target is 960x540 and every other one full size. */
  lemma SetupSizesExample(s: PassSetting)
    requires s.downSample == 2
    ensures SetupSize(s, Size(1920, 1080), ResolvedTex) == Size(960, 540)
    ensures forall id | id in SetupIds && id != ResolvedTex :: SetupSize(s, Size(1920, 1080), id) == Size(1920, 1080)
  {
  }

  /** Appending the next setup allocation, for the target `id` created
      with downsample factor `factor`. */
  lemma SetupNext(s: PassSetting, base: Size, pre: seq<Command>, k: nat, id: TexId, factor: int)
    requires s.downSample >= 1 && k < |SetupIds|
    requires id == SetupIds[k] && factor == SetupFactor(s, id)
    ensures pre + SetupAllocs(s, base, k) + [Alloc(id, TargetSize(base, factor))] == pre + SetupAllocs(s, base, k + 1)
  {
    assert SetupAllocs(s, base, k + 1) == SetupAllocs(s, base, k) + [Alloc(id, TargetSize(base, factor))];
  }

  /** Everything `OnCameraSetup` records. Without a renderer it throws on
      its first line and records nothing; without a material `InitRT`
      throws once `_SSRHitData` is taken from the pool, so only the first
      three targets exist; without the blue-noise texture reading its
      width throws after every target is allocated; otherwise the current
      view-projection matrix is uploaded too. */
  function SetupPlan(s: PassSetting, base: Size, rendererSet: bool, materialLoaded: bool, blueNoiseLoaded: bool,
                     vp: Matrix): (r: seq<Command>)
    requires s.downSample >= 1
    ensures r == [] <==> !rendererSet
    ensures SetMatrix(MatrixVP, vp) in r <==> rendererSet && materialLoaded && blueNoiseLoaded
    ensures forall c | c in r && c != SetMatrix(MatrixVP, vp) :: c.Alloc?
  {
    if !rendererSet then []
    else if !materialLoaded then SetupAllocs(s, base, 3)
    else if !blueNoiseLoaded then SetupAllocs(s, base, |SetupIds|)
    else SetupAllocs(s, base, |SetupIds|) + [SetMatrix(MatrixVP, vp)]
  }

  /** The live targets after a complete setup: the camera target, which
      exists beforehand, and every setup target at its size. */
  ghost predicate SetupLive(s: PassSetting, base: Size, live: Live)
    requires s.downSample >= 1
  {
    && (forall x :: x in live <==> x == CameraTarget || x in SetupIds)
    && live[CameraTarget] == base
    && forall id | id in SetupIds :: live[id] == SetupSize(s, base, id)
  }

  /** Every setup target is distinct from the camera target and from every
      other one. */
  lemma SetupIdsDistinct()
    ensures CameraTarget !in SetupIds
    ensures forall i, j | 0 <= i < j < |SetupIds| :: SetupIds[i] != SetupIds[j]
  {
  }

  /** The eleven setup allocations succeed and leave exactly the setup
      targets live, each at its size. */
  lemma SetupAllocsRun(tg: GroupSizes, s: PassSetting, base: Size)
    requires s.downSample >= 1
    ensures var r := Run(tg, map[CameraTarget := base], SetupAllocs(s, base, |SetupIds|));
      r.Some? && SetupLive(s, base, r.value)
  {
    var cmds := SetupAllocs(s, base, |SetupIds|);
    SetupIdsDistinct();
    FreshAllocsRun(tg, map[CameraTarget := base], cmds);
    var r := Run(tg, map[CameraTarget := base], cmds);
    assert CommandIds(cmds) == SetupIds;
    forall id | id in SetupIds
      ensures r.value[id] == SetupSize(s, base, id)
    {
      var k :| 0 <= k < |SetupIds| && SetupIds[k] == id;
      assert cmds[k].id == id;
    }
  }

  /** `OnCameraSetup` misuses no target: every allocation it records
      succeeds, on the exception paths too, and once a renderer and a
      material are present exactly the setup targets are live, whether or
      not the blue-noise texture then throws. */
  lemma SetupRun(tg: GroupSizes, s: PassSetting, base: Size, rendererSet: bool, materialLoaded: bool,
                 blueNoiseLoaded: bool, vp: Matrix)
    requires s.downSample >= 1
    ensures var r := Run(tg, map[CameraTarget := base], SetupPlan(s, base, rendererSet, materialLoaded, blueNoiseLoaded, vp));
      && r.Some?
      && (rendererSet && materialLoaded ==> SetupLive(s, base, r.value))
  {
    var live := map[CameraTarget := base];
    if rendererSet && materialLoaded {
      SetupAllocsRun(tg, s, base);
      RunSnoc(tg, live, SetupAllocs(s, base, |SetupIds|), SetMatrix(MatrixVP, vp));
    } else if rendererSet {
      SetupAllocsFresh(s, base, 3);
      FreshAllocsRun(tg, live, SetupAllocs(s, base, 3));
    }
  }
}
