/** The dual-Kawase blur block of `Execute`. A full-size `_KawaseRT` is
    allocated; the down pass builds the pyramid `_KawaseRT0 ..
    _KawaseRT<D>` by ceiling-halving, each level downsampled from the one
    before (the first from the TAA target); the up pass walks it back to
    `_KawaseRT`, releasing levels as it goes, with an intermediate target
    swapped into the level list after the first step. `D` is
    `downSampleCount`. */
module Blur {
  import opened Arith
  import opened Frame
  import opened Targets

  /** `((x + 1) / 2, (y + 1) / 2)`: half the size, rounded up. */
  function CeilHalf(s: Size): Size
  {
    Size((s.width + 1) / 2, (s.height + 1) / 2)
  }

  /** `rtSizes[k]`: the screen size for `k == 0`, else `k` ceiling-halvings
      of it. */
  function PyramidSize(screen: Size, k: nat): Size
  {
    if k == 0 then screen else CeilHalf(PyramidSize(screen, k - 1))
  }

  /** Level `k` of the pyramid is the screen size divided by 2^k, rounded
      up. */
  lemma {:induction false} PyramidSizeClosedForm(screen: Size, k: nat)
    ensures PyramidSize(screen, k) == Size(CeilDiv(screen.width, Pow(2, k)), CeilDiv(screen.height, Pow(2, k)))
  {
    if k == 0 {
      CeilDivUnique(screen.width, 1, screen.width);
      CeilDivUnique(screen.height, 1, screen.height);
    } else {
      PyramidSizeClosedForm(screen, k - 1);
      CeilDivHalf(screen.width, Pow(2, k - 1));
      CeilDivHalf(screen.height, Pow(2, k - 1));
    }
  }

  /** Pyramid levels never grow, and a non-empty screen gives non-empty
      levels at every depth. */
  lemma {:induction false} PyramidShrinks(screen: Size, k: nat)
    ensures PyramidSize(screen, k + 1).width <= PyramidSize(screen, k).width
    ensures PyramidSize(screen, k + 1).height <= PyramidSize(screen, k).height
    ensures screen.width >= 1 ==> PyramidSize(screen, k).width >= 1
    ensures screen.height >= 1 ==> PyramidSize(screen, k).height >= 1
  {
    if k > 0 {
      PyramidShrinks(screen, k - 1);
    }
  }

  /** `rtIDs[k]`: `_KawaseRT` at index 0, `_KawaseRT<k-1>` after it. */
  function SlotId(k: nat): TexId
  {
    if k == 0 then KawaseRT else KawaseLevel(k - 1)
  }

  /** The first `n` entries of `rtIDs` as the down pass leaves them. */
  function Slots(n: nat): (ids: seq<TexId>)
    ensures |ids| == n
  {
    if n == 0 then [] else Slots(n - 1) + [SlotId(n - 1)]
  }

  /** The first `n` entries of `rtSizes`. */
  function Sizes(screen: Size, n: nat): (sizes: seq<Size>)
    ensures |sizes| == n
  {
    if n == 0 then [] else Sizes(screen, n - 1) + [PyramidSize(screen, n - 1)]
  }

  /** Entry `k` of `rtIDs` is `SlotId(k)` and entry `k` of `rtSizes` is
      the `k`-th pyramid size, however long the lists grow. */
  lemma {:induction false} SlotsSizesAt(screen: Size, n: nat, k: nat)
    requires k < n
    ensures Slots(n)[k] == SlotId(k) && Sizes(screen, n)[k] == PyramidSize(screen, k)
  {
    if k < n - 1 {
      SlotsSizesAt(screen, n - 1, k);
    }
  }

  /** The sizes list is non-increasing and, for a non-empty screen, has no
      empty entry. */
  lemma SizesShape(screen: Size, n: nat)
    ensures forall k | 0 <= k < n :: Sizes(screen, n)[k] == PyramidSize(screen, k)
    ensures forall k | 0 < k < n :: Sizes(screen, n)[k].width <= Sizes(screen, n)[k - 1].width
    ensures forall k | 0 < k < n :: Sizes(screen, n)[k].height <= Sizes(screen, n)[k - 1].height
    ensures screen.width >= 1 && screen.height >= 1 ==>
      forall k | 0 <= k < n :: Sizes(screen, n)[k].width >= 1 && Sizes(screen, n)[k].height >= 1
  {
    forall k | 0 <= k < n
      ensures Sizes(screen, n)[k] == PyramidSize(screen, k)
      ensures screen.width >= 1 ==> Sizes(screen, n)[k].width >= 1
      ensures screen.height >= 1 ==> Sizes(screen, n)[k].height >= 1
    {
      SlotsSizesAt(screen, n, k);
      PyramidShrinks(screen, k);
    }
    forall k | 0 < k < n
      ensures Sizes(screen, n)[k].width <= Sizes(screen, n)[k - 1].width
      ensures Sizes(screen, n)[k].height <= Sizes(screen, n)[k - 1].height
    {
      SlotsSizesAt(screen, n, k);
      SlotsSizesAt(screen, n, k - 1);
      PyramidShrinks(screen, k - 1);
    }
  }

  /** `DoKawaseSample` / `DoKawaseLinear`: one dispatch with groups covering
      `extent`, or nothing when the `DualBlur/CS_DualBlur` compute shader is
      missing. */
  function KawaseDispatch(loaded: bool, k: Kernel, src: TexId, dst: TexId, extent: Size, tile: Size): seq<Command>
    requires tile.width >= 1 && tile.height >= 1
  {
    if loaded then [Dispatch(k, src, dst, extent, Groups(extent, tile))] else []
  }

  /** The source of down step `i`: the TAA target, then the level before. */
  function DownSource(i: nat): TexId
  {
    if i == 0 then TAACurrTex else KawaseLevel(i - 1)
  }

  /** Down step `i`: allocate `_KawaseRT<i>` at the next pyramid size and
      downsample into it. */
  function DownStep(tg: GroupSizes, screen: Size, loaded: bool, i: nat): seq<Command>
    requires ValidGroupSizes(tg)
  {
    [Alloc(KawaseLevel(i), PyramidSize(screen, i + 1))]
      + KawaseDispatch(loaded, DualBlurDownSample, DownSource(i), KawaseLevel(i), PyramidSize(screen, i + 1), tg.down)
  }

  /** The first `n` down steps. */
  function DownPass(tg: GroupSizes, screen: Size, loaded: bool, n: nat): seq<Command>
    requires ValidGroupSizes(tg)
  {
    if n == 0 then [] else DownPass(tg, screen, loaded, n - 1) + DownStep(tg, screen, loaded, n - 1)
  }

  /** The `downSampleCount == 0` branch: upsample the single level into
      `_KawaseRT`, then blend the camera target into it. Nothing is
      released. */
  function ZeroBranch(tg: GroupSizes, screen: Size, loaded: bool): seq<Command>
    requires ValidGroupSizes(tg)
  {
    KawaseDispatch(loaded, DualBlurUpSample, SlotId(1), SlotId(0), PyramidSize(screen, 0), tg.up)
      + KawaseDispatch(loaded, LerpDownUpTex, CameraTarget, SlotId(0), PyramidSize(screen, 0), tg.lerp)
  }

  /** `rtIDs[i]` when up step `i` reads it: the swap after step `D + 1`
      put the intermediate `_KawaseRT<D+1>` at index `D`. */
  function UpSource(d: nat, i: nat): TexId
  {
    if i == d then KawaseLevel(d + 1) else SlotId(i)
  }

  /** The target of up step `i`: the intermediate at the first step, else
      `rtIDs[i - 1]`, which the swap at index `d` never reaches. */
  function UpTarget(d: nat, i: nat): TexId
    requires i >= 1
  {
    if i == d + 1 then KawaseLevel(d + 1) else SlotId(i - 1)
  }

  /** The dispatches of up step `i`: upsample `rtIDs[i]` into the target
      at size `rtSizes[i - 1]`; at the first step also blend `rtIDs[d]`
      into the intermediate. */
  function UpDispatches(tg: GroupSizes, screen: Size, loaded: bool, d: nat, i: nat): seq<Command>
    requires ValidGroupSizes(tg) && i >= 1
  {
    KawaseDispatch(loaded, DualBlurUpSample, UpSource(d, i), UpTarget(d, i), PyramidSize(screen, i - 1), tg.up)
      + (if i == d + 1
         then KawaseDispatch(loaded, LerpDownUpTex, SlotId(d), KawaseLevel(d + 1), PyramidSize(screen, d), tg.lerp)
         else [])
  }

  /** Up step `i`: its dispatches, then the release of its source. */
  function UpStep(tg: GroupSizes, screen: Size, loaded: bool, d: nat, i: nat): seq<Command>
    requires ValidGroupSizes(tg) && i >= 1
  {
    UpDispatches(tg, screen, loaded, d, i) + [Release(UpSource(d, i))]
  }

  /** The first `n` up steps, `i = d + 1` down to `i = d + 2 - n`. */
  function UpSteps(tg: GroupSizes, screen: Size, loaded: bool, d: nat, n: nat): seq<Command>
    requires ValidGroupSizes(tg) && n <= d + 1
  {
    if n == 0 then [] else UpSteps(tg, screen, loaded, d, n - 1) + UpStep(tg, screen, loaded, d, d + 2 - n)
  }

  /** The multi-level branch: allocate the intermediate at `rtSizes[d]`,
      walk up, release what ends up in `intermediateRTID`. */
  function MultiBranch(tg: GroupSizes, screen: Size, loaded: bool, d: nat): seq<Command>
    requires ValidGroupSizes(tg) && d >= 1
  {
    [Alloc(KawaseLevel(d + 1), PyramidSize(screen, d))]
      + UpSteps(tg, screen, loaded, d, d + 1)
      + [Release(KawaseLevel(d - 1))]
  }

  /** The copy back into the TAA target and the release of `_KawaseRT`,
      both only when neither blur setting is 0. */
  function BlitBack(blitBack: bool): seq<Command>
  {
    if blitBack then [Blit(Some(KawaseRT), TAACurrTex, None), Release(KawaseRT)] else []
  }

  /** The branch on `downSampleCount`. */
  function UpPass(tg: GroupSizes, screen: Size, loaded: bool, d: nat): seq<Command>
    requires ValidGroupSizes(tg)
  {
    if d == 0 then ZeroBranch(tg, screen, loaded) else MultiBranch(tg, screen, loaded, d)
  }

  /** Everything the blur block records. */
  function BlurPlan(tg: GroupSizes, screen: Size, loaded: bool, d: nat, blitBack: bool): (r: seq<Command>)
    requires ValidGroupSizes(tg)
    ensures |r| >= 1 + |BlitBack(blitBack)| && r[0] == Alloc(KawaseRT, screen)
    ensures blitBack ==> r[|r| - 2] == Blit(Some(KawaseRT), TAACurrTex, None) && r[|r| - 1] == Release(KawaseRT)
  {
    [Alloc(KawaseRT, screen)]
      + DownPass(tg, screen, loaded, d + 1)
      + UpPass(tg, screen, loaded, d)
      + BlitBack(blitBack)
  }

  // ---------------------------------------------------------------------
  // Resource lifetimes

  /** Where the blur block is: after `k` down steps, or before up step `i`
      (`i == 0`: after the last one). */
  datatype Stage = Down(k: nat) | Up(d: nat, i: nat)

  /** Whether `_KawaseRT<j>` is live at a stage. Before up step `d + 1` the
      whole pyramid and the intermediate are; each step frees its source;
      after the first step `_KawaseRT<d-1>` sits in `intermediateRTID`
      and survives the loop. */
  predicate LevelLive(st: Stage, j: nat)
  {
    match st
    case Down(k) => j < k
    case Up(d, i) =>
      if i == d + 1 then j <= d + 1
      else if i == d then j < d || j == d + 1
      else j < i || j == d - 1
  }

  /** The size `_KawaseRT<j>` is allocated with: the next pyramid size,
      except the intermediate, which takes `rtSizes[d]`. */
  function LevelSizeAt(screen: Size, st: Stage, j: nat): Size
  {
    if st.Up? && j == st.d + 1 then PyramidSize(screen, st.d) else PyramidSize(screen, j + 1)
  }

  /** The live targets at a stage: those live before the block, unchanged,
      `_KawaseRT` at screen size, and the live pyramid levels. */
  ghost predicate PyramidLive(screen: Size, live: Live, r: Live, st: Stage)
  {
    && (forall x :: x in r <==> x in live || x == KawaseRT || (x.KawaseLevel? && LevelLive(st, x.n)))
    && (forall x | x in live :: r[x] == live[x])
    && r[KawaseRT] == screen
    && (forall j | LevelLive(st, j) :: r[KawaseLevel(j)] == LevelSizeAt(screen, st, j))
  }

  /** What the blur block needs live before it starts, and what it needs
      not to be. */
  ghost predicate ReadyForBlur(live: Live)
  {
    && TAACurrTex in live && CameraTarget in live
    && KawaseRT !in live
    && forall j :: KawaseLevel(j) !in live
  }

  /** Replaying one optional dispatch whose targets are live, whose target
      has the dispatched size and whose groups are computed for it. */
  lemma DispatchRun(tg: GroupSizes, r: Live, loaded: bool, k: Kernel, src: TexId, dst: TexId, extent: Size)
    requires ValidGroupSizes(tg)
    requires src in r && dst in r && r[dst] == extent
    ensures Run(tg, r, KawaseDispatch(loaded, k, src, dst, extent, GroupSize(tg, k))) == Some(r)
  {
    if loaded {
      RunOne(tg, r, Dispatch(k, src, dst, extent, Groups(extent, GroupSize(tg, k))));
    }
  }

  lemma DownStepRun(tg: GroupSizes, screen: Size, loaded: bool, live: Live, r: Live, n: nat)
    requires ValidGroupSizes(tg) && ReadyForBlur(live) && n >= 1
    requires PyramidLive(screen, live, r, Down(n - 1))
    ensures Run(tg, r, DownStep(tg, screen, loaded, n - 1)) == Some(r[KawaseLevel(n - 1) := PyramidSize(screen, n)])
    ensures PyramidLive(screen, live, r[KawaseLevel(n - 1) := PyramidSize(screen, n)], Down(n))
  {
    var size := PyramidSize(screen, n);
    var r' := r[KawaseLevel(n - 1) := size];
    assert KawaseLevel(n - 1) !in r;
    RunOne(tg, r, Alloc(KawaseLevel(n - 1), size));
    DispatchRun(tg, r', loaded, DualBlurDownSample, DownSource(n - 1), KawaseLevel(n - 1), size);
    RunAppend(tg, r, [Alloc(KawaseLevel(n - 1), size)],
      KawaseDispatch(loaded, DualBlurDownSample, DownSource(n - 1), KawaseLevel(n - 1), size, tg.down));
  }

  /** Allocating `_KawaseRT` starts the down pass with no level live. */
  lemma DownPassStart(screen: Size, live: Live)
    requires ReadyForBlur(live)
    ensures PyramidLive(screen, live, live[KawaseRT := screen], Down(0))
  {
  }

  lemma {:induction false} DownPassRun(tg: GroupSizes, screen: Size, loaded: bool, live: Live, n: nat) returns (r: Live)
    requires ValidGroupSizes(tg) && ReadyForBlur(live)
    ensures Run(tg, live[KawaseRT := screen], DownPass(tg, screen, loaded, n)) == Some(r)
    ensures PyramidLive(screen, live, r, Down(n))
  {
    if n == 0 {
      r := live[KawaseRT := screen];
      DownPassStart(screen, live);
    } else {
      var m := n - 1;
      var l := DownPassRun(tg, screen, loaded, live, m);
      PyramidLiveAt(screen, live, l, Down(m), Down(n - 1));
      DownStepRun(tg, screen, loaded, live, l, n);
      r := l[KawaseLevel(m) := PyramidSize(screen, n)];
      DownPassCompose(tg, screen, loaded, live[KawaseRT := screen], l, r, n, m);
    }
  }

  /** Replaying one more down step after the earlier ones. */
  lemma DownPassCompose(tg: GroupSizes, screen: Size, loaded: bool, start: Live, l: Live, l': Live, n: nat, m: nat)
    requires ValidGroupSizes(tg) && n >= 1 && m == n - 1
    requires Run(tg, start, DownPass(tg, screen, loaded, m)) == Some(l)
    requires Run(tg, l, DownStep(tg, screen, loaded, m)) == Some(l')
    ensures Run(tg, start, DownPass(tg, screen, loaded, n)) == Some(l')
  {
    DownPassUnfold(tg, screen, loaded, n);
    RunAppend(tg, start, DownPass(tg, screen, loaded, m), DownStep(tg, screen, loaded, m));
  }

  /** What up step `i` reads and writes is live, at the sizes it
      dispatches over. */
  lemma UpStepOperands(screen: Size, live: Live, r: Live, d: nat, i: nat)
    requires ReadyForBlur(live) && d >= 1 && 1 <= i <= d + 1
    requires PyramidLive(screen, live, r, Up(d, i))
    ensures UpSource(d, i) in r && UpTarget(d, i) in r
    ensures r[UpTarget(d, i)] == PyramidSize(screen, i - 1)
    ensures i == d + 1 ==> SlotId(d) in r && r[KawaseLevel(d + 1)] == PyramidSize(screen, d)
  {
    if i == d + 1 {
      assert LevelLive(Up(d, i), d);
      assert LevelLive(Up(d, i), d + 1);
    } else if i == 1 {
      assert LevelLive(Up(d, i), 0);
    } else {
      assert LevelLive(Up(d, i), i - 1);
      assert LevelLive(Up(d, i), i - 2);
    }
  }

  /** Up step `i` frees its source and nothing else. */
  lemma UpStepFrees(screen: Size, live: Live, r: Live, d: nat, i: nat)
    requires ReadyForBlur(live) && d >= 1 && 1 <= i <= d + 1
    requires PyramidLive(screen, live, r, Up(d, i))
    ensures PyramidLive(screen, live, r - {UpSource(d, i)}, Up(d, i - 1))
  {
    var src := UpSource(d, i);
    var r' := r - {src};
    forall x
      ensures x in r' <==> x in live || x == KawaseRT || (x.KawaseLevel? && LevelLive(Up(d, i - 1), x.n))
    {
      if x.KawaseLevel? {
        assert LevelLive(Up(d, i), x.n) && x != src <==> LevelLive(Up(d, i - 1), x.n);
      }
    }
    forall j | LevelLive(Up(d, i - 1), j)
      ensures r'[KawaseLevel(j)] == LevelSizeAt(screen, Up(d, i - 1), j)
    {
      assert LevelLive(Up(d, i), j);
    }
  }

  /** The dispatches of up step `i` replay without a misuse. */
  lemma UpDispatchesRun(tg: GroupSizes, screen: Size, loaded: bool, r: Live, d: nat, i: nat)
    requires ValidGroupSizes(tg) && 1 <= i <= d + 1
    requires UpSource(d, i) in r && UpTarget(d, i) in r
    requires r[UpTarget(d, i)] == PyramidSize(screen, i - 1)
    requires i == d + 1 ==> SlotId(d) in r && r[KawaseLevel(d + 1)] == PyramidSize(screen, d)
    ensures Run(tg, r, UpDispatches(tg, screen, loaded, d, i)) == Some(r)
  {
    var up := KawaseDispatch(loaded, DualBlurUpSample, UpSource(d, i), UpTarget(d, i), PyramidSize(screen, i - 1), tg.up);
    var lerp := if i == d + 1
      then KawaseDispatch(loaded, LerpDownUpTex, SlotId(d), KawaseLevel(d + 1), PyramidSize(screen, d), tg.lerp)
      else [];
    DispatchRun(tg, r, loaded, DualBlurUpSample, UpSource(d, i), UpTarget(d, i), PyramidSize(screen, i - 1));
    if i == d + 1 {
      DispatchRun(tg, r, loaded, LerpDownUpTex, SlotId(d), KawaseLevel(d + 1), PyramidSize(screen, d));
    }
    RunAppend(tg, r, up, lerp);
  }

  /** `PyramidLive` at a stage written two ways. */
  lemma PyramidLiveAt(screen: Size, live: Live, r: Live, st: Stage, st': Stage)
    requires st == st' && PyramidLive(screen, live, r, st)
    ensures PyramidLive(screen, live, r, st')
  {
  }

  lemma UpStepRun(tg: GroupSizes, screen: Size, loaded: bool, live: Live, r: Live, d: nat, i: nat, j: nat)
    requires ValidGroupSizes(tg) && ReadyForBlur(live) && d >= 1 && 1 <= i <= d + 1 && j == i - 1
    requires PyramidLive(screen, live, r, Up(d, i))
    ensures Run(tg, r, UpStep(tg, screen, loaded, d, i)) == Some(r - {UpSource(d, i)})
    ensures PyramidLive(screen, live, r - {UpSource(d, i)}, Up(d, j))
  {
    UpStepOperands(screen, live, r, d, i);
    UpDispatchesRun(tg, screen, loaded, r, d, i);
    UpStepFrees(screen, live, r, d, i);
    RunSnoc(tg, r, UpDispatches(tg, screen, loaded, d, i), Release(UpSource(d, i)));
  }

  /** Replaying one more up step after the earlier ones. */
  lemma UpStepsCompose(tg: GroupSizes, screen: Size, loaded: bool, r: Live, l: Live, l': Live, d: nat, n: nat, i: nat)
    requires ValidGroupSizes(tg) && 1 <= n <= d + 1 && i == d + 2 - n
    requires Run(tg, r, UpSteps(tg, screen, loaded, d, n - 1)) == Some(l)
    requires Run(tg, l, UpStep(tg, screen, loaded, d, i)) == Some(l')
    ensures Run(tg, r, UpSteps(tg, screen, loaded, d, n)) == Some(l')
  {
    UpStepsUnfold(tg, screen, loaded, d, n, n - 1, i);
    RunAppend(tg, r, UpSteps(tg, screen, loaded, d, n - 1), UpStep(tg, screen, loaded, d, i));
  }

  lemma {:induction false} UpStepsRun(tg: GroupSizes, screen: Size, loaded: bool, live: Live, r: Live, d: nat, n: nat)
    returns (r': Live)
    requires ValidGroupSizes(tg) && ReadyForBlur(live) && d >= 1 && n <= d + 1
    requires PyramidLive(screen, live, r, Up(d, d + 1))
    ensures Run(tg, r, UpSteps(tg, screen, loaded, d, n)) == Some(r')
    ensures PyramidLive(screen, live, r', Up(d, d + 1 - n))
  {
    if n == 0 {
      r' := r;
      PyramidLiveAt(screen, live, r, Up(d, d + 1), Up(d, d + 1 - n));
    } else {
      var m := n - 1;
      var i := d + 1 - m;
      var j := d + 1 - n;
      var l := UpStepsRun(tg, screen, loaded, live, r, d, m);
      UpStepRun(tg, screen, loaded, live, l, d, i, j);
      r' := l - {UpSource(d, i)};
      UpStepsCompose(tg, screen, loaded, r, l, r', d, n, i);
      PyramidLiveAt(screen, live, r', Up(d, j), Up(d, d + 1 - n));
    }
  }

  /** The live targets after either branch: `_KawaseRT`, and in the
      single-level branch `_KawaseRT0`, which that branch never releases. */
  function AfterBranch(screen: Size, live: Live, d: nat): Live
  {
    if d == 0 then live[KawaseRT := screen][KawaseLevel(0) := PyramidSize(screen, 1)]
    else live[KawaseRT := screen]
  }

  /** Allocating the intermediate after the down pass starts the up walk. */
  lemma IntermediateLive(screen: Size, live: Live, r: Live, d: nat)
    requires ReadyForBlur(live) && d >= 1
    requires PyramidLive(screen, live, r, Down(d + 1))
    ensures KawaseLevel(d + 1) !in r
    ensures PyramidLive(screen, live, r[KawaseLevel(d + 1) := PyramidSize(screen, d)], Up(d, d + 1))
  {
    var r1 := r[KawaseLevel(d + 1) := PyramidSize(screen, d)];
    forall j: nat | LevelLive(Up(d, d + 1), j)
      ensures r1[KawaseLevel(j)] == LevelSizeAt(screen, Up(d, d + 1), j)
    {
      if j <= d {
        assert LevelLive(Down(d + 1), j);
      }
    }
  }

  /** After the up walk only `_KawaseRT<d-1>`, held by `intermediateRTID`,
      is left of the pyramid; releasing it restores the targets live
      before the block plus `_KawaseRT`. */
  lemma UpWalkEnd(screen: Size, live: Live, r: Live, d: nat)
    requires ReadyForBlur(live) && d >= 1
    requires PyramidLive(screen, live, r, Up(d, 0))
    ensures KawaseLevel(d - 1) in r
    ensures r - {KawaseLevel(d - 1)} == AfterBranch(screen, live, d)
  {
    assert LevelLive(Up(d, 0), d - 1);
    var r' := r - {KawaseLevel(d - 1)};
    var expected := AfterBranch(screen, live, d);
    assert forall x :: x in r' <==> x in expected;
    assert r' == expected;
  }

  lemma MultiBranchRun(tg: GroupSizes, screen: Size, loaded: bool, live: Live, r: Live, d: nat)
    requires ValidGroupSizes(tg) && ReadyForBlur(live) && d >= 1
    requires PyramidLive(screen, live, r, Down(d + 1))
    ensures Run(tg, r, MultiBranch(tg, screen, loaded, d)) == Some(AfterBranch(screen, live, d))
  {
    var alloc := [Alloc(KawaseLevel(d + 1), PyramidSize(screen, d))];
    var ups := UpSteps(tg, screen, loaded, d, d + 1);
    IntermediateLive(screen, live, r, d);
    RunOne(tg, r, Alloc(KawaseLevel(d + 1), PyramidSize(screen, d)));
    var r2 := UpStepsRun(tg, screen, loaded, live, r[KawaseLevel(d + 1) := PyramidSize(screen, d)], d, d + 1);
    UpWalkEnd(screen, live, r2, d);
    RunAppend(tg, r, alloc, ups);
    RunSnoc(tg, r, alloc + ups, Release(KawaseLevel(d - 1)));
  }

  lemma ZeroBranchRun(tg: GroupSizes, screen: Size, loaded: bool, live: Live, r: Live)
    requires ValidGroupSizes(tg) && ReadyForBlur(live)
    requires PyramidLive(screen, live, r, Down(1))
    ensures Run(tg, r, ZeroBranch(tg, screen, loaded)) == Some(AfterBranch(screen, live, 0))
  {
    DispatchRun(tg, r, loaded, DualBlurUpSample, SlotId(1), SlotId(0), PyramidSize(screen, 0));
    DispatchRun(tg, r, loaded, LerpDownUpTex, CameraTarget, SlotId(0), PyramidSize(screen, 0));
    RunAppend(tg, r,
      KawaseDispatch(loaded, DualBlurUpSample, SlotId(1), SlotId(0), PyramidSize(screen, 0), tg.up),
      KawaseDispatch(loaded, LerpDownUpTex, CameraTarget, SlotId(0), PyramidSize(screen, 0), tg.lerp));
    var expected := AfterBranch(screen, live, 0);
    assert forall x :: x in r <==> x in expected;
    assert r == expected;
  }

  /** The live targets the blur block leaves: those live before it, plus
      `_KawaseRT0` when `downSampleCount == 0`, plus `_KawaseRT` when it is
      not copied back. */
  function AfterBlur(screen: Size, live: Live, d: nat, blitBack: bool): (r: Live)
    ensures blitBack && d >= 1 ==> r == live
  {
    var withLevel := if d == 0 then live[KawaseLevel(0) := PyramidSize(screen, 1)] else live;
    if blitBack then withLevel else withLevel[KawaseRT := screen]
  }

  /** The blur block misuses no target: every allocation is fresh, every
      dispatch reads and writes live targets with groups covering the
      target, every release frees a live target. With several levels and
      the copy back, exactly the targets live before remain; otherwise
      `_KawaseRT0` (single level) and `_KawaseRT` (no copy back) are left
      allocated. */
  lemma BlurRun(tg: GroupSizes, screen: Size, loaded: bool, live: Live, d: nat, blitBack: bool)
    requires ValidGroupSizes(tg) && ReadyForBlur(live)
    ensures Run(tg, live, BlurPlan(tg, screen, loaded, d, blitBack)) == Some(AfterBlur(screen, live, d, blitBack))
  {
    var start := [Alloc(KawaseRT, screen)];
    var down := DownPass(tg, screen, loaded, d + 1);
    var up := UpPass(tg, screen, loaded, d);
    RunOne(tg, live, Alloc(KawaseRT, screen));
    var r1 := DownPassRun(tg, screen, loaded, live, d + 1);
    UpPassRun(tg, screen, loaded, live, r1, d);
    BlitBackRun(tg, screen, live, d, blitBack);
    RunAppend(tg, live, start, down);
    RunAppend(tg, live, start + down, up);
    RunAppend(tg, live, start + down + up, BlitBack(blitBack));
  }

  lemma UpPassRun(tg: GroupSizes, screen: Size, loaded: bool, live: Live, r: Live, d: nat)
    requires ValidGroupSizes(tg) && ReadyForBlur(live)
    requires PyramidLive(screen, live, r, Down(d + 1))
    ensures Run(tg, r, UpPass(tg, screen, loaded, d)) == Some(AfterBranch(screen, live, d))
  {
    if d == 0 {
      ZeroBranchRun(tg, screen, loaded, live, r);
    } else {
      MultiBranchRun(tg, screen, loaded, live, r, d);
    }
  }

  lemma BlitBackRun(tg: GroupSizes, screen: Size, live: Live, d: nat, blitBack: bool)
    requires ReadyForBlur(live)
    ensures Run(tg, AfterBranch(screen, live, d), BlitBack(blitBack)) == Some(AfterBlur(screen, live, d, blitBack))
  {
    var r := AfterBranch(screen, live, d);
    var expected := AfterBlur(screen, live, d, blitBack);
    if blitBack {
      var b := Blit(Some(KawaseRT), TAACurrTex, None);
      RunOne(tg, r, b);
      RunSnoc(tg, r, [b], Release(KawaseRT));
      assert [b] + [Release(KawaseRT)] == BlitBack(blitBack);
      var r' := r - {KawaseRT};
      assert forall x :: x in r' <==> x in expected;
      assert r' == expected;
    } else {
      assert forall x :: x in r <==> x in expected;
      assert r == expected;
    }
  }

  /** In the multi-level branch every pyramid level and the intermediate
      is released exactly once, and `_KawaseRT` (`rtIDs[0]`) is not
      released by it. */
  lemma MultiBranchReleases(tg: GroupSizes, screen: Size, loaded: bool, d: nat)
    requires ValidGroupSizes(tg) && d >= 1
    ensures var m := multiset(MultiBranch(tg, screen, loaded, d));
      && (forall j: nat | j <= d + 1 :: m[Release(KawaseLevel(j))] == 1)
      && m[Release(KawaseRT)] == 0
  {
    forall j: nat | j <= d + 1
      ensures multiset(MultiBranch(tg, screen, loaded, d))[Release(KawaseLevel(j))] == 1
    {
      MultiBranchReleasesLevel(tg, screen, loaded, d, j);
    }
    MultiBranchKeepsTarget(tg, screen, loaded, d);
  }

  /** The multi-level branch releases `_KawaseRT<j>` once. */
  lemma MultiBranchReleasesLevel(tg: GroupSizes, screen: Size, loaded: bool, d: nat, j: nat)
    requires ValidGroupSizes(tg) && d >= 1 && j <= d + 1
    ensures multiset(MultiBranch(tg, screen, loaded, d))[Release(KawaseLevel(j))] == 1
  {
    MultiBranchReleaseCount(tg, screen, loaded, d, KawaseLevel(j));
    UpReleasedCount(d, d + 1, j);
    assert ReleasedBy(d, d + 1, j) <==> j != d - 1;
  }

  /** The multi-level branch never releases `_KawaseRT`. */
  lemma MultiBranchKeepsTarget(tg: GroupSizes, screen: Size, loaded: bool, d: nat)
    requires ValidGroupSizes(tg) && d >= 1
    ensures multiset(MultiBranch(tg, screen, loaded, d))[Release(KawaseRT)] == 0
  {
    MultiBranchReleaseCount(tg, screen, loaded, d, KawaseRT);
    UpReleasedCount(d, d + 1, 0);
  }

  /** The multi-level branch releases `id` as often as the up walk does,
      plus once more for `_KawaseRT<d-1>`. */
  lemma MultiBranchReleaseCount(tg: GroupSizes, screen: Size, loaded: bool, d: nat, id: TexId)
    requires ValidGroupSizes(tg) && d >= 1
    ensures multiset(MultiBranch(tg, screen, loaded, d))[Release(id)]
         == multiset(UpReleased(d, d + 1))[id] + (if id == KawaseLevel(d - 1) then 1 else 0)
  {
    var alloc := [Alloc(KawaseLevel(d + 1), PyramidSize(screen, d))];
    var ups := UpSteps(tg, screen, loaded, d, d + 1);
    var last := [Release(KawaseLevel(d - 1))];
    CountConcat3(alloc, ups, last, Release(id));
    assert multiset(alloc)[Release(id)] == 0;
    assert multiset(last)[Release(id)] == if id == KawaseLevel(d - 1) then 1 else 0;
    UpStepsReleases(tg, screen, loaded, d, d + 1, Release(id));
  }

  // ---------------------------------------------------------------------
  // Release accounting of the up walk

  lemma UpStepsUnfold(tg: GroupSizes, screen: Size, loaded: bool, d: nat, n: nat, m: nat, i: nat)
    requires ValidGroupSizes(tg) && 1 <= n <= d + 1 && m == n - 1 && i == d + 2 - n
    ensures UpSteps(tg, screen, loaded, d, n) == UpSteps(tg, screen, loaded, d, m) + UpStep(tg, screen, loaded, d, i)
  {
  }

  lemma UpReleasedUnfold(d: nat, n: nat, m: nat, i: nat)
    requires 1 <= n <= d + 1 && m == n - 1 && i == d + 2 - n
    ensures UpReleased(d, n) == UpReleased(d, m) + [UpSource(d, i)]
  {
  }

  lemma DownPassUnfold(tg: GroupSizes, screen: Size, loaded: bool, n: nat)
    requires ValidGroupSizes(tg) && n >= 1
    ensures DownPass(tg, screen, loaded, n) == DownPass(tg, screen, loaded, n - 1) + DownStep(tg, screen, loaded, n - 1)
  {
  }

  lemma SlotsSizesUnfold(screen: Size, n: nat)
    requires n >= 1
    ensures Slots(n) == Slots(n - 1) + [SlotId(n - 1)]
    ensures Sizes(screen, n) == Sizes(screen, n - 1) + [PyramidSize(screen, n - 1)]
  {
  }

  /** One turn of the down loop extends the log by one down step. */
  lemma DownLoopStep(tg: GroupSizes, screen: Size, loaded: bool, start: seq<Command>, before: seq<Command>,
                     i: nat, lastID: TexId, rtSize: Size)
    requires ValidGroupSizes(tg)
    requires before == start + DownPass(tg, screen, loaded, i)
    requires lastID == DownSource(i) && rtSize == PyramidSize(screen, i + 1)
    ensures before + [Alloc(KawaseLevel(i), rtSize)]
      + KawaseDispatch(loaded, SampleKernel(true), lastID, KawaseLevel(i), rtSize, GroupSize(tg, SampleKernel(true)))
      == start + DownPass(tg, screen, loaded, i + 1)
  {
    var disp := KawaseDispatch(loaded, DualBlurDownSample, lastID, KawaseLevel(i), rtSize, tg.down);
    ConcatAssoc(before, [Alloc(KawaseLevel(i), rtSize)], disp);
    DownPassUnfold(tg, screen, loaded, i + 1);
    ConcatAssoc(start, DownPass(tg, screen, loaded, i), DownStep(tg, screen, loaded, i));
  }

  /** The dispatches one turn of the up loop records are those of up
      step `i`, whichever branch of the swap it takes. */
  lemma UpLoopDispatches(tg: GroupSizes, screen: Size, loaded: bool, d: nat, i: nat, before: seq<Command>, after: seq<Command>)
    requires ValidGroupSizes(tg) && 1 <= i <= d + 1
    requires i == d + 1 ==>
      after == before
        + KawaseDispatch(loaded, SampleKernel(false), UpSource(d, i), UpTarget(d, i), PyramidSize(screen, i - 1), GroupSize(tg, SampleKernel(false)))
        + KawaseDispatch(loaded, LerpDownUpTex, SlotId(d), KawaseLevel(d + 1), PyramidSize(screen, d), tg.lerp)
    requires i != d + 1 ==>
      after == before
        + KawaseDispatch(loaded, SampleKernel(false), UpSource(d, i), UpTarget(d, i), PyramidSize(screen, i - 1), GroupSize(tg, SampleKernel(false)))
    ensures after == before + UpDispatches(tg, screen, loaded, d, i)
  {
    var up := KawaseDispatch(loaded, DualBlurUpSample, UpSource(d, i), UpTarget(d, i), PyramidSize(screen, i - 1), tg.up);
    if i == d + 1 {
      ConcatAssoc(before, up, KawaseDispatch(loaded, LerpDownUpTex, SlotId(d), KawaseLevel(d + 1), PyramidSize(screen, d), tg.lerp));
    } else {
      assert up + [] == up;
    }
  }

  /** One turn of the up loop extends the log by one up step. */
  lemma UpLoopStep(tg: GroupSizes, screen: Size, loaded: bool, d: nat, i: nat,
                   start: seq<Command>, before: seq<Command>, mid: seq<Command>, after: seq<Command>)
    requires ValidGroupSizes(tg) && 1 <= i <= d + 1
    requires before == start + UpSteps(tg, screen, loaded, d, d + 1 - i)
    requires mid == before + UpDispatches(tg, screen, loaded, d, i)
    requires after == mid + [Release(UpSource(d, i))]
    ensures after == start + UpSteps(tg, screen, loaded, d, d + 1 - (i - 1))
  {
    UpStepsUnfold(tg, screen, loaded, d, d + 2 - i, d + 1 - i, i);
    ConcatAssoc(start, UpSteps(tg, screen, loaded, d, d + 1 - i), UpStep(tg, screen, loaded, d, i));
    ConcatAssoc(before, UpDispatches(tg, screen, loaded, d, i), [Release(UpSource(d, i))]);
  }

  /** The ids the up loop reads at step `i`, before and after the swap. */
  lemma UpLoopIds(screen: Size, d: nat, i: nat, rtIDs: seq<TexId>)
    requires d >= 1 && 1 <= i <= d + 1
    requires rtIDs == if i == d + 1 then Slots(d + 2) else Slots(d + 2)[d := KawaseLevel(d + 1)]
    ensures |rtIDs| == d + 2
    ensures rtIDs[i] == UpSource(d, i)
    ensures i <= d ==> rtIDs[i - 1] == UpTarget(d, i)
    ensures i == d + 1 ==> rtIDs[i - 1] == SlotId(d)
    ensures i == d + 1 ==> rtIDs[i - 1 := KawaseLevel(d + 1)] == Slots(d + 2)[d := KawaseLevel(d + 1)]
  {
    if i == d + 1 {
      UpLoopIdsLast(screen, d, i, rtIDs);
    } else {
      UpLoopIdsInner(screen, d, i, rtIDs);
    }
  }

  /** The last up step reads the slots before the swap. */
  lemma UpLoopIdsLast(screen: Size, d: nat, i: nat, rtIDs: seq<TexId>)
    requires d >= 1 && i == d + 1 && rtIDs == Slots(d + 2)
    ensures |rtIDs| == d + 2 && rtIDs[i] == UpSource(d, i) && rtIDs[i - 1] == SlotId(d)
    ensures rtIDs[i - 1 := KawaseLevel(d + 1)] == Slots(d + 2)[d := KawaseLevel(d + 1)]
  {
    SlotsSizesAt(screen, d + 2, d + 1);
    SlotsSizesAt(screen, d + 2, d);
  }

  /** Every other up step reads the slots after the swap. */
  lemma UpLoopIdsInner(screen: Size, d: nat, i: nat, rtIDs: seq<TexId>)
    requires d >= 1 && 1 <= i <= d && rtIDs == Slots(d + 2)[d := KawaseLevel(d + 1)]
    ensures |rtIDs| == d + 2 && rtIDs[i] == UpSource(d, i) && rtIDs[i - 1] == UpTarget(d, i)
  {
    SlotsSizesAt(screen, d + 2, i);
    SlotsSizesAt(screen, d + 2, i - 1);
    assert i - 1 != d;
  }

  lemma ConcatAssoc<T>(a: seq<T>, b: seq<T>, c: seq<T>)
    ensures a + b + c == a + (b + c)
  {
  }

  /** The sources the first `n` up steps release, in order. */
  function UpReleased(d: nat, n: nat): seq<TexId>
    requires n <= d + 1
  {
    if n == 0 then [] else UpReleased(d, n - 1) + [UpSource(d, d + 2 - n)]
  }

  /** The first `n` up steps release exactly their sources; every other
      command is a dispatch. */
  lemma {:induction false} UpStepsReleases(tg: GroupSizes, screen: Size, loaded: bool, d: nat, n: nat, c: Command)
    requires ValidGroupSizes(tg) && n <= d + 1 && c.Release?
    ensures multiset(UpSteps(tg, screen, loaded, d, n))[c] == multiset(UpReleased(d, n))[c.id]
  {
    if n > 0 {
      var m := n - 1;
      var i := d + 2 - n;
      UpStepsReleases(tg, screen, loaded, d, m, c);
      UpStepsUnfold(tg, screen, loaded, d, n, m, i);
      MultisetConcat(UpSteps(tg, screen, loaded, d, m), UpStep(tg, screen, loaded, d, i));
      UpStepReleases(tg, screen, loaded, d, i, c);
      UpReleasedUnfold(d, n, m, i);
      CountSnoc(UpReleased(d, m), UpSource(d, i), c.id);
    }
  }

  /** One up step releases its source once and nothing else. */
  lemma UpStepReleases(tg: GroupSizes, screen: Size, loaded: bool, d: nat, i: nat, c: Command)
    requires ValidGroupSizes(tg) && i >= 1 && c.Release?
    ensures multiset(UpStep(tg, screen, loaded, d, i))[c] == if c.id == UpSource(d, i) then 1 else 0
  {
    var disp := UpDispatches(tg, screen, loaded, d, i);
    assert c !in disp;
    MultisetConcat(disp, [Release(UpSource(d, i))]);
  }

  /** Whether the first `n` up steps release `_KawaseRT<j>`: the first
      step frees `_KawaseRT<d>`, the second the intermediate, each later
      step `i` frees `_KawaseRT<i-1>`. */
  predicate ReleasedBy(d: nat, n: nat, j: nat)
  {
    (n >= 1 && j == d) || (n >= 2 && j == d + 1) || (d + 1 - n <= j <= d - 2)
  }

  /** The level the `n`-th up step releases. */
  function UpReleasedLevel(d: nat, n: nat): nat
    requires 1 <= n <= d + 1
  {
    if n == 1 then d else if n == 2 then d + 1 else d + 1 - n
  }

  lemma UpSourceLevel(d: nat, n: nat)
    requires d >= 1 && 1 <= n <= d + 1
    ensures UpSource(d, d + 2 - n) == KawaseLevel(UpReleasedLevel(d, n))
    ensures forall j: nat :: ReleasedBy(d, n, j) <==> ReleasedBy(d, n - 1, j) || j == UpReleasedLevel(d, n)
    ensures !ReleasedBy(d, n - 1, UpReleasedLevel(d, n))
  {
  }

  lemma {:induction false} UpReleasedCount(d: nat, n: nat, j: nat)
    requires d >= 1 && n <= d + 1
    ensures multiset(UpReleased(d, n))[KawaseLevel(j)] == if ReleasedBy(d, n, j) then 1 else 0
    ensures KawaseRT !in UpReleased(d, n)
  {
    if n > 0 {
      var i := d + 2 - n;
      UpReleasedCount(d, n - 1, j);
      UpSourceLevel(d, n);
      var released := UpReleased(d, n - 1);
      assert UpReleased(d, n) == released + [KawaseLevel(UpReleasedLevel(d, n))];
      assert multiset(released + [KawaseLevel(UpReleasedLevel(d, n))])
          == multiset(released) + multiset{KawaseLevel(UpReleasedLevel(d, n))};
    }
  }

  // ---------------------------------------------------------------------
  // The recording methods

  /** The kernel `DoKawaseSample` picks. */
  function SampleKernel(downSample: bool): Kernel
  {
    if downSample then DualBlurDownSample else DualBlurUpSample
  }

  /** `DoKawaseSample`: one down- or upsampling dispatch from `src` into
      `dst`, with groups covering the target size; nothing when the compute
      shader is missing. */
  method DoKawaseSample(cmd: CommandBuffer, tg: GroupSizes, loaded: bool, src: TexId, dst: TexId,
                        targetSize: Size, downSample: bool)
    requires ValidGroupSizes(tg)
    modifies cmd
    ensures cmd.commands == old(cmd.commands)
      + KawaseDispatch(loaded, SampleKernel(downSample), src, dst, targetSize, GroupSize(tg, SampleKernel(downSample)))
  {
    if !loaded {
      assert old(cmd.commands) + [] == old(cmd.commands);
      return;
    }
    var k := SampleKernel(downSample);
    var tile := GroupSize(tg, k);
    cmd.DispatchCompute(k, src, dst, targetSize,
      Size(CeilDiv(targetSize.width, tile.width), CeilDiv(targetSize.height, tile.height)));
  }

  /** `DoKawaseLinear`: one blend dispatch from `src` into `dst`, with
      groups covering the source size. */
  method DoKawaseLinear(cmd: CommandBuffer, tg: GroupSizes, loaded: bool, src: TexId, dst: TexId, sourceSize: Size)
    requires ValidGroupSizes(tg)
    modifies cmd
    ensures cmd.commands == old(cmd.commands) + KawaseDispatch(loaded, LerpDownUpTex, src, dst, sourceSize, tg.lerp)
  {
    if !loaded {
      assert old(cmd.commands) + [] == old(cmd.commands);
      return;
    }
    cmd.DispatchCompute(LerpDownUpTex, src, dst, sourceSize,
      Size(CeilDiv(sourceSize.width, tg.lerp.width), CeilDiv(sourceSize.height, tg.lerp.height)));
  }

  /** The down pass of the blur block: allocates `_KawaseRT` and the
      pyramid, and returns `rtIDs` and `rtSizes`, `D + 2` entries each. */
  method BuildPyramid(cmd: CommandBuffer, tg: GroupSizes, screen: Size, loaded: bool, d: nat)
    returns (rtIDs: seq<TexId>, rtSizes: seq<Size>)
    requires ValidGroupSizes(tg)
    modifies cmd
    ensures rtIDs == Slots(d + 2) && rtSizes == Sizes(screen, d + 2)
    ensures cmd.commands == old(cmd.commands) + [Alloc(KawaseRT, screen)] + DownPass(tg, screen, loaded, d + 1)
  {
    cmd.GetTemporaryRT(KawaseRT, screen);
    ghost var start := cmd.commands;
    rtIDs := [KawaseRT];
    rtSizes := [screen];
    var lastSize := screen;
    var lastID := TAACurrTex;
    var i := 0;
    while i <= d
      invariant 0 <= i <= d + 1
      invariant rtIDs == Slots(i + 1) && rtSizes == Sizes(screen, i + 1)
      invariant lastSize == PyramidSize(screen, i) && lastID == DownSource(i)
      invariant cmd.commands == start + DownPass(tg, screen, loaded, i)
    {
      var rtSize := CeilHalf(lastSize);
      SlotsSizesUnfold(screen, i + 2);
      ghost var before := cmd.commands;
      cmd.GetTemporaryRT(KawaseLevel(i), rtSize);
      rtIDs := rtIDs + [KawaseLevel(i)];
      rtSizes := rtSizes + [rtSize];
      DoKawaseSample(cmd, tg, loaded, lastID, KawaseLevel(i), rtSize, true);
      DownLoopStep(tg, screen, loaded, start, before, i, lastID, rtSize);
      lastSize := rtSize;
      lastID := KawaseLevel(i);
      i := i + 1;
    }
  }

  /** The up walk of the multi-level branch, with the swap of the
      intermediate into `rtIDs[D]` after the first step. */
  method WalkUp(cmd: CommandBuffer, tg: GroupSizes, screen: Size, loaded: bool, d: nat,
                rtIDs0: seq<TexId>, rtSizes: seq<Size>)
    requires ValidGroupSizes(tg) && d >= 1
    requires rtIDs0 == Slots(d + 2) && rtSizes == Sizes(screen, d + 2)
    modifies cmd
    ensures cmd.commands == old(cmd.commands) + MultiBranch(tg, screen, loaded, d)
  {
    var rtIDs := rtIDs0;
    var intermediateRTID := KawaseLevel(d + 1);
    SlotsSizesAt(screen, d + 2, d);
    cmd.GetTemporaryRT(intermediateRTID, rtSizes[d]);
    ghost var start := cmd.commands;
    var i := d + 1;
    while i >= 1
      invariant 0 <= i <= d + 1
      invariant rtIDs == if i == d + 1 then Slots(d + 2) else Slots(d + 2)[d := KawaseLevel(d + 1)]
      invariant intermediateRTID == if i == d + 1 then KawaseLevel(d + 1) else SlotId(d)
      invariant cmd.commands == start + UpSteps(tg, screen, loaded, d, d + 1 - i)
    {
      UpLoopIds(screen, d, i, rtIDs);
      SlotsSizesAt(screen, d + 2, i - 1);
      var sourceID := rtIDs[i];
      var targetID := if i == d + 1 then intermediateRTID else rtIDs[i - 1];
      var targetSize := rtSizes[i - 1];
      ghost var before := cmd.commands;
      DoKawaseSample(cmd, tg, loaded, sourceID, targetID, targetSize, false);
      if i == d + 1 {
        DoKawaseLinear(cmd, tg, loaded, rtIDs[i - 1], intermediateRTID, targetSize);
        var tempID := intermediateRTID;
        intermediateRTID := rtIDs[i - 1];
        rtIDs := rtIDs[i - 1 := tempID];
      }
      UpLoopDispatches(tg, screen, loaded, d, i, before, cmd.commands);
      ghost var mid := cmd.commands;
      cmd.ReleaseTemporaryRT(sourceID);
      UpLoopStep(tg, screen, loaded, d, i, start, before, mid, cmd.commands);
      i := i - 1;
    }
    cmd.ReleaseTemporaryRT(intermediateRTID);
    ConcatAssoc(old(cmd.commands), [Alloc(KawaseLevel(d + 1), PyramidSize(screen, d))], UpSteps(tg, screen, loaded, d, d + 1));
    ConcatAssoc(old(cmd.commands), [Alloc(KawaseLevel(d + 1), PyramidSize(screen, d))] + UpSteps(tg, screen, loaded, d, d + 1), [Release(KawaseLevel(d - 1))]);
  }

  /** The blur block of `Execute`: the pyramid depth follows from the
      blur radius, the copy back from the two blur settings. */
  method KawaseBlur(cmd: CommandBuffer, tg: GroupSizes, screen: Size, loaded: bool, s: PassSetting)
    requires ValidGroupSizes(tg) && ValidSetting(s)
    modifies cmd
    ensures GetRadius(s) >= 0.0
    ensures cmd.commands == old(cmd.commands)
      + BlurPlan(tg, screen, loaded, DownSampleCount(GetRadius(s)), BlitsBack(s))
  {
    RadiusRange(s);
    var d := DownSampleCount(GetRadius(s));
    var rtIDs, rtSizes := BuildPyramid(cmd, tg, screen, loaded, d);
    ghost var built := cmd.commands;
    if d == 0 {
      SlotsSizesAt(screen, 2, 0);
      SlotsSizesAt(screen, 2, 1);
      DoKawaseSample(cmd, tg, loaded, rtIDs[1], rtIDs[0], rtSizes[0], false);
      DoKawaseLinear(cmd, tg, loaded, CameraTarget, rtIDs[0], rtSizes[0]);
      ConcatAssoc(built,
        KawaseDispatch(loaded, DualBlurUpSample, SlotId(1), SlotId(0), PyramidSize(screen, 0), tg.up),
        KawaseDispatch(loaded, LerpDownUpTex, CameraTarget, SlotId(0), PyramidSize(screen, 0), tg.lerp));
    } else {
      WalkUp(cmd, tg, screen, loaded, d, rtIDs, rtSizes);
    }
    ghost var walked := cmd.commands;
    if s.blurIntensity != 0.0 && s.blurMaxRadius != 0.0 {
      cmd.BlitTexture(Some(KawaseRT), TAACurrTex, None);
      cmd.ReleaseTemporaryRT(KawaseRT);
    }
    BlurLog(tg, screen, loaded, d, BlitsBack(s), old(cmd.commands), built, walked, cmd.commands);
  }

  /** The pieces the blur block records, put together. */
  lemma BlurLog(tg: GroupSizes, screen: Size, loaded: bool, d: nat, blitBack: bool,
                pre: seq<Command>, built: seq<Command>, walked: seq<Command>, post: seq<Command>)
    requires ValidGroupSizes(tg)
    requires built == pre + [Alloc(KawaseRT, screen)] + DownPass(tg, screen, loaded, d + 1)
    requires walked == built + UpPass(tg, screen, loaded, d)
    requires blitBack ==> post == walked + [Blit(Some(KawaseRT), TAACurrTex, None)] + [Release(KawaseRT)]
    requires !blitBack ==> post == walked
    ensures post == pre + BlurPlan(tg, screen, loaded, d, blitBack)
  {
    var a := [Alloc(KawaseRT, screen)];
    var down := DownPass(tg, screen, loaded, d + 1);
    var up := UpPass(tg, screen, loaded, d);
    var back := BlitBack(blitBack);
    if blitBack {
      ConcatAssoc(walked, [Blit(Some(KawaseRT), TAACurrTex, None)], [Release(KawaseRT)]);
    } else {
      assert walked + [] == walked;
    }
    ConcatAssoc(pre, a, down);
    ConcatAssoc(pre, a + down, up);
    ConcatAssoc(pre, a + down + up, back);
  }
}
