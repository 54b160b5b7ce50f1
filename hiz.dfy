/** `DoHizDepth`: the hierarchical depth chain. Level 0 is the full-size
    depth copy `_HiZDepthTex0`; each further level is a temporary half the
    size of the one before (floor division), filled by the `GetHiZ` kernel
    from the level before and copied into mip `i` of level 0. Once all
    levels exist they are released in order. */
module HiZ {
  import opened Arith
  import opened Frame

  /** `_maxMipMapLevels`: level 0 and six reduced levels. */
  const MaxMipMapLevels: nat := 7

  /** `currTexSize /= 2` on both components. */
  function Halve(s: Size): (r: Size)
    ensures 2 * r.width <= s.width < 2 * r.width + 2
    ensures 2 * r.height <= s.height < 2 * r.height + 2
  {
    Size(s.width / 2, s.height / 2)
  }

  /** The size of level `i`: `i` floor-halvings of the base size, which is
      the base size divided by 2^i. */
  function LevelSize(base: Size, i: nat): (r: Size)
    ensures r == Size(base.width / Pow(2, i), base.height / Pow(2, i))
  {
    if i == 0 then base
    else
      var prev := LevelSize(base, i - 1);
      DivDiv(base.width, Pow(2, i - 1), 2);
      DivDiv(base.height, Pow(2, i - 1), 2);
      Halve(prev)
  }

  /** One iteration of the level loop: allocate level `i`, reduce level
      `i - 1` into it with groups covering its size, copy it into mip `i`
      of level 0. */
  function LevelCommands(tg: GroupSizes, base: Size, i: nat): seq<Command>
    requires ValidGroupSizes(tg) && i >= 1
  {
    var size := LevelSize(base, i);
    [ Alloc(HiZDepthTex(i), size),
      Dispatch(GetHiZ, HiZDepthTex(i - 1), HiZDepthTex(i), size, Groups(size, tg.hiZ)),
      CopyTexture(HiZDepthTex(i), HiZDepthTex(0), i) ]
  }

  /** Level `k` occupies the three commands of `cmds` from position
      `3 * (k - 1)`: it is allocated at its level size, then filled by a
      reduction of level `k - 1` with groups covering it exactly, then
      copied into mip `k` of level 0. */
  ghost predicate LevelAt(tg: GroupSizes, base: Size, cmds: seq<Command>, k: nat)
    requires k >= 1 && 3 * k <= |cmds|
  {
    var j := 3 * (k - 1);
    && cmds[j] == Alloc(HiZDepthTex(k), LevelSize(base, k))
    && cmds[j + 1].Dispatch?
    && cmds[j + 1].kernel == GetHiZ
    && cmds[j + 1].src == HiZDepthTex(k - 1)
    && cmds[j + 1].dst == HiZDepthTex(k)
    && cmds[j + 1].extent == LevelSize(base, k)
    && ExactCover(LevelSize(base, k), tg.hiZ, cmds[j + 1].groups)
    && cmds[j + 2] == CopyTexture(HiZDepthTex(k), HiZDepthTex(0), k)
  }

  /** The first `n` iterations of the level loop. */
  function BuildLevels(tg: GroupSizes, base: Size, n: nat): (cmds: seq<Command>)
    requires ValidGroupSizes(tg)
    ensures |cmds| == 3 * n
  {
    if n == 0 then [] else BuildLevels(tg, base, n - 1) + LevelCommands(tg, base, n)
  }

  /** The level loop lays its commands out level by level: level `k` is
      built from level `k - 1`, for every `k` from 1 to `n`. */
  lemma {:induction false} BuildLayout(tg: GroupSizes, base: Size, n: nat)
    requires ValidGroupSizes(tg)
    ensures forall k | 1 <= k <= n :: LevelAt(tg, base, BuildLevels(tg, base, n), k)
  {
    if n > 0 {
      BuildLayout(tg, base, n - 1);
      var prev := BuildLevels(tg, base, n - 1);
      var cmds := BuildLevels(tg, base, n);
      forall k | 1 <= k <= n
        ensures LevelAt(tg, base, cmds, k)
      {
        if k < n {
          assert LevelAt(tg, base, prev, k);
          assert cmds[3 * (k - 1)] == prev[3 * (k - 1)];
          assert cmds[3 * (k - 1) + 1] == prev[3 * (k - 1) + 1];
          assert cmds[3 * (k - 1) + 2] == prev[3 * (k - 1) + 2];
        } else {
          assert cmds[3 * (k - 1)..] == LevelCommands(tg, base, n);
        }
      }
    }
  }

  /** The release loop: `_HiZDepthTex1` .. `_HiZDepthTex<n>` in order. */
  function ReleaseLevels(n: nat): (cmds: seq<Command>)
    ensures |cmds| == n
    ensures forall k | 0 <= k < n :: cmds[k] == Release(HiZDepthTex(k + 1))
  {
    if n == 0 then [] else ReleaseLevels(n - 1) + [Release(HiZDepthTex(n))]
  }

  /** Everything `DoHizDepth` records: nothing when the compute shader is
      missing, else every level built and then every level released. */
  function HiZPlan(tg: GroupSizes, base: Size, loaded: bool): (r: seq<Command>)
    requires ValidGroupSizes(tg)
    ensures |r| == if loaded then 4 * (MaxMipMapLevels - 1) else 0
    ensures loaded ==> r[|r| - 1] == Release(HiZDepthTex(MaxMipMapLevels - 1))
  {
    if loaded then BuildLevels(tg, base, MaxMipMapLevels - 1) + ReleaseLevels(MaxMipMapLevels - 1) else []
  }

  /** The plan creates exactly `_maxMipMapLevels - 1` levels and releases
      each of them exactly once. */
  lemma HiZLevelCount(tg: GroupSizes, base: Size)
    requires ValidGroupSizes(tg)
    ensures var p := HiZPlan(tg, base, true);
      forall k :: multiset(p)[Release(HiZDepthTex(k))] == if 1 <= k <= 6 then 1 else 0
  {
    var b := BuildLevels(tg, base, 6);
    var p := HiZPlan(tg, base, true);
    forall k
      ensures multiset(p)[Release(HiZDepthTex(k))] == if 1 <= k <= 6 then 1 else 0
    {
      BuildHasNoRelease(tg, base, 6, k);
      assert Release(HiZDepthTex(k)) !in multiset(b);
      ReleaseCount(6, k);
      assert multiset(p) == multiset(b) + multiset(ReleaseLevels(6));
    }
  }

  lemma {:induction false} BuildHasNoRelease(tg: GroupSizes, base: Size, n: nat, k: nat)
    requires ValidGroupSizes(tg)
    ensures Release(HiZDepthTex(k)) !in BuildLevels(tg, base, n)
  {
    if n > 0 {
      BuildHasNoRelease(tg, base, n - 1, k);
      var cs := LevelCommands(tg, base, n);
      assert Release(HiZDepthTex(k)) !in cs;
    }
  }

  lemma {:induction false} ReleaseCount(n: nat, k: nat)
    ensures multiset(ReleaseLevels(n))[Release(HiZDepthTex(k))] == if 1 <= k <= n then 1 else 0
  {
    if n > 0 {
      var m := n - 1;
      ReleaseCount(m, k);
      var prev, x, y := ReleaseLevels(m), Release(HiZDepthTex(n)), Release(HiZDepthTex(k));
      assert ReleaseLevels(n) == prev + [x];
      CountSnoc(prev, x, y);
      assert x == y <==> k == n;
    }
  }

  /** The live targets while the chain exists: those of `live`, unchanged,
      and the levels `lo + 1 .. hi`, each at its level size. */
  ghost predicate ChainLive(base: Size, live: Live, r: Live, lo: nat, hi: nat)
  {
    && (forall x :: x in r <==> x in live || (x.HiZDepthTex? && lo < x.level <= hi))
    && (forall x | x in live :: r[x] == live[x])
    && (forall k | lo < k <= hi :: r[HiZDepthTex(k)] == LevelSize(base, k))
  }

  /** The live targets `DoHizDepth` starts from: level 0 exists, no reduced
      level does. */
  predicate ReadyForChain(live: Live)
  {
    && HiZDepthTex(0) in live
    && forall k | 1 <= k < MaxMipMapLevels :: HiZDepthTex(k) !in live
  }

  lemma BuildStep(tg: GroupSizes, base: Size, live: Live, r: Live, n: nat)
    requires ValidGroupSizes(tg) && ReadyForChain(live) && 1 <= n < MaxMipMapLevels
    requires ChainLive(base, live, r, 0, n - 1)
    ensures Run(tg, r, LevelCommands(tg, base, n)) == Some(r[HiZDepthTex(n) := LevelSize(base, n)])
    ensures ChainLive(base, live, r[HiZDepthTex(n) := LevelSize(base, n)], 0, n)
  {
    var size := LevelSize(base, n);
    var r' := r[HiZDepthTex(n) := size];
    var cs := LevelCommands(tg, base, n);
    assert HiZDepthTex(n) !in r;
    assert HiZDepthTex(n - 1) in r';
    RunOne(tg, r, cs[0]);
    RunSnoc(tg, r, cs[..1], cs[1]);
    RunSnoc(tg, r, cs[..2], cs[2]);
    assert cs[..1] + [cs[1]] == cs[..2];
    assert cs[..2] + [cs[2]] == cs;
  }

  lemma {:induction false} BuildRun(tg: GroupSizes, base: Size, live: Live, n: nat) returns (r: Live)
    requires ValidGroupSizes(tg) && ReadyForChain(live) && n < MaxMipMapLevels
    ensures Run(tg, live, BuildLevels(tg, base, n)) == Some(r)
    ensures ChainLive(base, live, r, 0, n)
  {
    if n == 0 {
      r := live;
    } else {
      var l := BuildRun(tg, base, live, n - 1);
      BuildStep(tg, base, live, l, n);
      RunAppend(tg, live, BuildLevels(tg, base, n - 1), LevelCommands(tg, base, n));
      r := l[HiZDepthTex(n) := LevelSize(base, n)];
    }
  }

  lemma ReleaseStep(base: Size, live: Live, l: Live, m: nat)
    requires ReadyForChain(live) && 1 <= m < MaxMipMapLevels
    requires ChainLive(base, live, l, m - 1, MaxMipMapLevels - 1)
    ensures HiZDepthTex(m) in l
    ensures ChainLive(base, live, l - {HiZDepthTex(m)}, m, MaxMipMapLevels - 1)
  {
  }

  lemma {:induction false} ReleaseRun(tg: GroupSizes, base: Size, live: Live, r: Live, m: nat) returns (r': Live)
    requires ReadyForChain(live) && m < MaxMipMapLevels
    requires ChainLive(base, live, r, 0, MaxMipMapLevels - 1)
    ensures Run(tg, r, ReleaseLevels(m)) == Some(r')
    ensures ChainLive(base, live, r', m, MaxMipMapLevels - 1)
  {
    if m == 0 {
      r' := r;
    } else {
      var l := ReleaseRun(tg, base, live, r, m - 1);
      ReleaseStep(base, live, l, m);
      RunSnoc(tg, r, ReleaseLevels(m - 1), Release(HiZDepthTex(m)));
      r' := l - {HiZDepthTex(m)};
    }
  }

  /** `DoHizDepth` uses its temporaries correctly: every allocation is of a
      level not yet live, every reduction reads and writes live levels of
      the right size with exactly covering groups, every copy goes to level
      0, every release frees a live level, and afterwards exactly the
      targets live before remain, unchanged. */
  lemma HiZRun(tg: GroupSizes, base: Size, live: Live, loaded: bool)
    requires ValidGroupSizes(tg) && ReadyForChain(live)
    ensures Run(tg, live, HiZPlan(tg, base, loaded)) == Some(live)
  {
    if loaded {
      var b := BuildRun(tg, base, live, MaxMipMapLevels - 1);
      var e := ReleaseRun(tg, base, live, b, MaxMipMapLevels - 1);
      RunAppend(tg, live, BuildLevels(tg, base, 6), ReleaseLevels(6));
      assert e.Keys == live.Keys;
      assert forall x | x in live :: e[x] == live[x];
      assert e == live;
    }
  }

  /** `DoHizDepth`, recording into `cmd`. `loaded` says whether the
      `HiZ/CS_HiZ` compute shader was found; `tg` is what
      `GetKernelThreadGroupSizes` reports for `GetHiZ`. */
  method DoHizDepth(cmd: CommandBuffer, tg: GroupSizes, base: Size, loaded: bool)
    requires ValidGroupSizes(tg)
    modifies cmd
    ensures cmd.commands == old(cmd.commands) + HiZPlan(tg, base, loaded)
  {
    if !loaded {
      assert old(cmd.commands) + [] == old(cmd.commands);
      return;
    }
    var currTexSize := base;
    var lastHizDepthRT := HiZDepthTex(0);
    var i := 1;
    while i < MaxMipMapLevels
      invariant 1 <= i <= MaxMipMapLevels
      invariant currTexSize == LevelSize(base, i - 1)
      invariant lastHizDepthRT == HiZDepthTex(i - 1)
      invariant cmd.commands == old(cmd.commands) + BuildLevels(tg, base, i - 1)
    {
      currTexSize := Halve(currTexSize);
      cmd.GetTemporaryRT(HiZDepthTex(i), currTexSize);
      var groups := Size(CeilDiv(currTexSize.width, tg.hiZ.width), CeilDiv(currTexSize.height, tg.hiZ.height));
      cmd.DispatchCompute(GetHiZ, lastHizDepthRT, HiZDepthTex(i), currTexSize, groups);
      cmd.CopyTex(HiZDepthTex(i), HiZDepthTex(0), i);
      lastHizDepthRT := HiZDepthTex(i);
      i := i + 1;
    }
    var built := cmd.commands;
    i := 1;
    while i < MaxMipMapLevels
      invariant 1 <= i <= MaxMipMapLevels
      invariant cmd.commands == built + ReleaseLevels(i - 1)
    {
      cmd.ReleaseTemporaryRT(HiZDepthTex(i));
      i := i + 1;
    }
  }
}
