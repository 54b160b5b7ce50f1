/** The recorded side of a frame: render-target identifiers and sizes, the
    commands the pass records into a Unity command buffer (as abstract
    events), and a resource-lifetime reading of a command list that says
    which temporaries are live after it, or that it misuses one. */
module Frame {
  import opened Arith

  datatype Option<T> = None | Some(value: T)

  /** A texture size in texels (`Vector2Int` / descriptor width and height). */
  datatype Size = Size(width: nat, height: nat)

  /** The render targets the pass names, one constructor per shader
      property id. `HiZDepthTex(i)` is `_HiZDepthTex<i>`, `KawaseRT` is
      `_KawaseRT` and `KawaseLevel(n)` is `_KawaseRT<n>`; `SSRHitData` and `SSRHitMask` are the two
      textures `InitRT` takes from the `RenderTexture` pool; `CameraTarget`
      is the camera colour target, which the pass does not allocate. */
  datatype TexId =
    | CameraTarget
    | SourceTex
    | HiZDepthTex(level: nat)
    | SSRHitData
    | SSRHitMask
    | HitUVTex
    | HitZTex
    | HitMaskTex
    | ResolvedTex
    | TAACurrTex
    | TAAPreTex
    | CombineTex
    | KawaseRT
    | KawaseLevel(n: nat)

  /** The compute kernels the pass dispatches. */
  datatype Kernel = GetHiZ | DualBlurDownSample | DualBlurUpSample | LerpDownUpTex

  /** Thread-group sizes as `GetKernelThreadGroupSizes` reports them for each
      kernel; the z extent is always 1 and is left out. */
  datatype GroupSizes = GroupSizes(hiZ: Size, down: Size, up: Size, lerp: Size)

  predicate ValidGroupSizes(tg: GroupSizes)
  {
    && tg.hiZ.width >= 1 && tg.hiZ.height >= 1
    && tg.down.width >= 1 && tg.down.height >= 1
    && tg.up.width >= 1 && tg.up.height >= 1
    && tg.lerp.width >= 1 && tg.lerp.height >= 1
  }

  function GroupSize(tg: GroupSizes, k: Kernel): Size
  {
    match k
    case GetHiZ => tg.hiZ
    case DualBlurDownSample => tg.down
    case DualBlurUpSample => tg.up
    case LerpDownUpTex => tg.lerp
  }

  /** `groups` thread groups of `tile` threads cover every texel of `extent`
      and no group lies wholly outside it, in both dimensions. */
  predicate ExactCover(extent: Size, tile: Size, groups: Size)
  {
    && groups.width * tile.width >= extent.width
    && (groups.width - 1) * tile.width < extent.width
    && groups.height * tile.height >= extent.height
    && (groups.height - 1) * tile.height < extent.height
  }

  /** The group counts of every dispatch: `CeilToInt(n / x)` per dimension. */
  function Groups(extent: Size, tile: Size): (g: Size)
    requires tile.width >= 1 && tile.height >= 1
    ensures ExactCover(extent, tile, g)
  {
    Size(CeilDiv(extent.width, tile.width), CeilDiv(extent.height, tile.height))
  }

  /** Exact cover determines the group counts: `Groups` is the only
      choice that covers every texel without a wasted group. */
  lemma GroupsUnique(extent: Size, tile: Size, g: Size)
    requires tile.width >= 1 && tile.height >= 1
    ensures ExactCover(extent, tile, g) <==> g == Groups(extent, tile)
  {
    if ExactCover(extent, tile, g) {
      CeilDivUnique(extent.width, tile.width, g.width);
      CeilDivUnique(extent.height, tile.height, g.height);
    }
  }

  /** A 4x4 matrix, kept opaque: the model never multiplies or inverts one. */
  datatype Matrix = Matrix(entries: seq<real>)

  /** `default(Matrix4x4)`: all sixteen entries zero. */
  const ZeroMatrix: Matrix := Matrix([0.0, 0.0, 0.0, 0.0, 0.0, 0.0, 0.0, 0.0, 0.0, 0.0, 0.0, 0.0, 0.0, 0.0, 0.0, 0.0])

  /** The matrix uniforms whose order matters to the model. */
  datatype MatrixName = MatrixVP | PreMatrixVP

  /** One recorded command. `Blit(src, dst, pass)` with `src == None` is a
      full-screen draw into `dst` with material pass `pass`; with
      `pass == None` it is a plain copy. `Dispatch` records the extent its
      groups were computed from. `DrawRayMarch` is the ray march, which
      renders into `_SSRHitData` and `_SSRHitMask`. */
  datatype Command =
    | Alloc(id: TexId, size: Size)
    | Release(id: TexId)
    | Dispatch(kernel: Kernel, src: TexId, dst: TexId, extent: Size, groups: Size)
    | Blit(from: Option<TexId>, to: TexId, pass: Option<nat>)
    | CopyTexture(copySrc: TexId, copyDst: TexId, mip: nat)
    | DrawRayMarch
    | SetMatrix(name: MatrixName, m: Matrix)

  /** The live temporaries: every target that may be read or written,
      with the size it was allocated with. */
  type Live = map<TexId, Size>

  /** One command against the live targets: allocating a live id, releasing
      a dead one, touching a dead target, or dispatching over an extent
      other than the target's size or with inexact group counts is a
      misuse (`None`). */
  function Step(tg: GroupSizes, live: Live, c: Command): (r: Option<Live>)
    ensures c.Alloc? ==> (r.Some? <==> c.id !in live)
    ensures c.Release? ==> (r.Some? <==> c.id in live)
    ensures r.Some? && c.Alloc? ==> r.value.Keys == live.Keys + {c.id} && r.value[c.id] == c.size
    ensures r.Some? && c.Release? ==> r.value.Keys == live.Keys - {c.id}
    ensures r.Some? && !c.Alloc? && !c.Release? ==> r.value == live
  {
    match c
    case Alloc(id, size) => if id in live then None else Some(live[id := size])
    case Release(id) => if id in live then Some(live - {id}) else None
    case Dispatch(k, src, dst, extent, groups) =>
      if src in live && dst in live && live[dst] == extent && ExactCover(extent, GroupSize(tg, k), groups)
      then Some(live) else None
    case Blit(from, to, _) =>
      if (from.None? || from.value in live) && to in live then Some(live) else None
    case CopyTexture(copySrc, copyDst, _) =>
      if copySrc in live && copyDst in live then Some(live) else None
    case DrawRayMarch =>
      if SSRHitData in live && SSRHitMask in live then Some(live) else None
    case SetMatrix(_, _) => Some(live)
  }

  /** Replays a command list from `live`: the live targets afterwards, or
      `None` at the first misuse. */
  function Run(tg: GroupSizes, live: Live, cmds: seq<Command>): Option<Live>
  {
    if cmds == [] then Some(live)
    else
      match Run(tg, live, cmds[..|cmds| - 1])
      case None => None
      case Some(l) => Step(tg, l, cmds[|cmds| - 1])
  }

  /** Replaying a concatenation replays the first part, then the second. */
  lemma {:induction false} RunAppend(tg: GroupSizes, live: Live, a: seq<Command>, b: seq<Command>)
    ensures Run(tg, live, a + b) == match Run(tg, live, a)
                                    case None => None
                                    case Some(l) => Run(tg, l, b)
    decreases |b|
  {
    if b == [] {
      assert a + b == a;
    } else {
      var b' := b[..|b| - 1];
      assert (a + b)[..|a + b| - 1] == a + b';
      assert (a + b)[|a + b| - 1] == b[|b| - 1];
      RunAppend(tg, live, a, b');
    }
  }

  /** Replaying one command more. */
  lemma RunSnoc(tg: GroupSizes, live: Live, a: seq<Command>, c: Command)
    ensures Run(tg, live, a + [c]) == match Run(tg, live, a)
                                      case None => None
                                      case Some(l) => Step(tg, l, c)
  {
    assert (a + [c])[..|a|] == a;
  }

  /** Replaying a single command. */
  lemma RunOne(tg: GroupSizes, live: Live, c: Command)
    ensures Run(tg, live, [c]) == Step(tg, live, c)
  {
    assert [c][..0] == [];
  }

  /** A command that neither allocates nor releases, and reads and writes
      only live targets. */
  predicate TouchesLive(live: Live, c: Command)
  {
    match c
    case Blit(from, to, _) => (from.None? || from.value in live) && to in live
    case CopyTexture(copySrc, copyDst, _) => copySrc in live && copyDst in live
    case DrawRayMarch => SSRHitData in live && SSRHitMask in live
    case SetMatrix(_, _) => true
    case _ => false
  }

  /** Commands that only touch live targets replay without changing them. */
  lemma {:induction false} TouchesLiveRun(tg: GroupSizes, live: Live, cmds: seq<Command>)
    requires forall k | 0 <= k < |cmds| :: TouchesLive(live, cmds[k])
    ensures Run(tg, live, cmds) == Some(live)
  {
    if cmds != [] {
      TouchesLiveRun(tg, live, cmds[..|cmds| - 1]);
    }
  }

  /** A list of allocations of distinct targets none of which is live. */
  predicate FreshAllocs(live: Live, cmds: seq<Command>)
  {
    && (forall k | 0 <= k < |cmds| :: cmds[k].Alloc? && cmds[k].id !in live)
    && (forall i, j | 0 <= i < j < |cmds| :: cmds[i].id != cmds[j].id)
  }

  /** The targets a list of allocations or releases names, in order. */
  function CommandIds(cmds: seq<Command>): (ids: seq<TexId>)
    requires forall k | 0 <= k < |cmds| :: cmds[k].Alloc? || cmds[k].Release?
    ensures |ids| == |cmds| && forall k | 0 <= k < |cmds| :: ids[k] == cmds[k].id
  {
    seq(|cmds|, k requires 0 <= k < |cmds| => cmds[k].id)
  }

  /** `r` is `live` with the targets `cmds` allocates added at their sizes. */
  ghost predicate AllocatedBy(live: Live, cmds: seq<Command>, r: Live)
    requires forall k | 0 <= k < |cmds| :: cmds[k].Alloc?
  {
    && (forall x :: x in r <==> x in live || x in CommandIds(cmds))
    && (forall x | x in live :: r[x] == live[x])
    && (forall k | 0 <= k < |cmds| :: r[cmds[k].id] == cmds[k].size)
  }

  lemma AllocatedBySnoc(live: Live, prev: seq<Command>, id: TexId, size: Size, l: Live)
    requires FreshAllocs(live, prev + [Alloc(id, size)])
    requires forall k | 0 <= k < |prev| :: prev[k].Alloc?
    requires AllocatedBy(live, prev, l)
    ensures id !in l && AllocatedBy(live, prev + [Alloc(id, size)], l[id := size])
  {
    var cmds := prev + [Alloc(id, size)];
    var n := |cmds|;
    assert cmds[n - 1] == Alloc(id, size);
    assert id !in CommandIds(prev) by {
      forall k | 0 <= k < n - 1
        ensures CommandIds(prev)[k] != id
      {
        assert cmds[k] == prev[k];
      }
    }
    assert CommandIds(cmds) == CommandIds(prev) + [id];
    var r := l[id := size];
    forall k | 0 <= k < n
      ensures r[cmds[k].id] == cmds[k].size
    {
      if k < n - 1 {
        assert prev[k] == cmds[k];
      }
    }
  }

  /** Fresh allocations all succeed: afterwards the live targets are the
      earlier ones, unchanged, and every allocated one at its size. */
  lemma {:induction false} FreshAllocsRun(tg: GroupSizes, live: Live, cmds: seq<Command>)
    requires FreshAllocs(live, cmds)
    ensures Run(tg, live, cmds).Some? && AllocatedBy(live, cmds, Run(tg, live, cmds).value)
  {
    if cmds != [] {
      var prev := cmds[..|cmds| - 1];
      var c := cmds[|cmds| - 1];
      assert cmds == prev + [Alloc(c.id, c.size)];
      assert FreshAllocs(live, prev);
      FreshAllocsRun(tg, live, prev);
      var l := Run(tg, live, prev).value;
      AllocatedBySnoc(live, prev, c.id, c.size, l);
      RunSnoc(tg, live, prev, c);
    }
  }

  /** Removing a key that was just added gives back the map without it. */
  lemma AddRemove(m: Live, k: TexId, s: Size)
    requires k !in m
    ensures m[k := s] - {k} == m
  {
    var l := m[k := s] - {k};
    assert l.Keys == m.Keys;
    assert forall j | j in l :: l[j] == m[j];
  }

  /** The command buffer the pass records into (`CommandBuffer`), read as
      the log of what the pass submits in order. The methods are the Unity
      calls the model keeps, each appending its event. */
  class CommandBuffer {
    var commands: seq<Command>

    constructor ()
      ensures commands == []
    {
      commands := [];
    }

    method GetTemporaryRT(id: TexId, size: Size)
      modifies this
      ensures commands == old(commands) + [Alloc(id, size)]
    {
      commands := commands + [Alloc(id, size)];
    }

    /** `RenderTexture.GetTemporary`: not a recorded command but an
        immediate acquisition, logged in the same sequence because it
        starts a lifetime just as `GetTemporaryRT` does. */
    method GetTemporaryTexture(id: TexId, size: Size)
      modifies this
      ensures commands == old(commands) + [Alloc(id, size)]
    {
      commands := commands + [Alloc(id, size)];
    }

    method ReleaseTemporaryRT(id: TexId)
      modifies this
      ensures commands == old(commands) + [Release(id)]
    {
      commands := commands + [Release(id)];
    }

    method DispatchCompute(k: Kernel, src: TexId, dst: TexId, extent: Size, groups: Size)
      modifies this
      ensures commands == old(commands) + [Dispatch(k, src, dst, extent, groups)]
    {
      commands := commands + [Dispatch(k, src, dst, extent, groups)];
    }

    method BlitTexture(from: Option<TexId>, to: TexId, pass: Option<nat>)
      modifies this
      ensures commands == old(commands) + [Blit(from, to, pass)]
    {
      commands := commands + [Blit(from, to, pass)];
    }

    method CopyTex(src: TexId, dst: TexId, mip: nat)
      modifies this
      ensures commands == old(commands) + [CopyTexture(src, dst, mip)]
    {
      commands := commands + [CopyTexture(src, dst, mip)];
    }

    method DrawRenderers()
      modifies this
      ensures commands == old(commands) + [DrawRayMarch]
    {
      commands := commands + [DrawRayMarch];
    }

    method SetGlobalMatrix(name: MatrixName, m: Matrix)
      modifies this
      ensures commands == old(commands) + [SetMatrix(name, m)]
    {
      commands := commands + [SetMatrix(name, m)];
    }
  }

  // ---------------------------------------------------------------------
  // Counting in a log

  lemma MultisetConcat<T>(a: seq<T>, b: seq<T>)
    ensures multiset(a + b) == multiset(a) + multiset(b)
  {
  }

  lemma CountConcat3<T>(a: seq<T>, b: seq<T>, c: seq<T>, x: T)
    ensures multiset(a + b + c)[x] == multiset(a)[x] + multiset(b)[x] + multiset(c)[x]
  {
    MultisetConcat(a, b);
    MultisetConcat(a + b, c);
  }

  lemma CountSnoc<T>(a: seq<T>, x: T, y: T)
    ensures multiset(a + [x])[y] == multiset(a)[y] + (if x == y then 1 else 0)
  {
    MultisetConcat(a, [x]);
  }
}
