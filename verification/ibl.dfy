/**
  Image-based lighting: the four capture passes that turn an equirectangular
  HDR image into the environment cubemap, the diffuse irradiance cubemap,
  the mip-chained specular prefilter cubemap and the 2D BRDF lookup table.

  Each pass is a function over the GL state. Every capture draw snapshots the
  bound framebuffer, the attached face and level, the depth storage and the
  viewport, so the capture invariant "depth size = viewport = attached level
  size" is a statement about the resulting draw trace.
*/
module Ibl {
  import opened Wrappers
  import opened Gl
  import Texture2D
  import Shader

  /** std::string::npos for a 64-bit size_t. */
  const NPOS: nat := 0xFFFF_FFFF_FFFF_FFFF

  const FACES: nat := 6
  const CUBEMAP_SIZE: nat := 512
  const IRRADIANCE_SIZE: nat := 32
  const PREFILTER_SIZE: nat := 128
  /** `max_mip_levels`: the number of prefilter levels rendered. */
  const PREFILTER_LEVELS: nat := 5
  const BRDF_SIZE: nat := 512

  // ---- the file extension --------------------------------------------------------

  /** `find_last_of(c)`: the index of the last `c`, or npos. */
  function FindLastOf(s: string, c: char): (r: nat)
    requires |s| < NPOS
    ensures r == NPOS <==> c !in s
    ensures r != NPOS ==> r < |s| && s[r] == c && c !in s[r + 1..]
    decreases |s|
  {
    if s == [] then NPOS
    else if s[|s| - 1] == c then
      assert s[|s|..] == [];
      |s| - 1
    else
      var init := s[..|s| - 1];
      var r := FindLastOf(init, c);
      assert s == init + [s[|s| - 1]];
      assert r != NPOS ==> s[r + 1..] == init[r + 1..] + [s[|s| - 1]];
      r
  }

  /** `path.substr(path.find_last_of(".") + 1)`: the size_t sum wraps npos + 1
      round to 0, so a path without '.' is its own extension. The result is
      the longest suffix of the path that holds no '.'. */
  function Extension(path: string): (ext: string)
    requires |path| < NPOS
    ensures '.' !in ext
    ensures |ext| <= |path| && ext == path[|path| - |ext|..]
    ensures |ext| < |path| ==> path[|path| - |ext| - 1] == '.'
    ensures '.' !in path ==> ext == path
  {
    var dot := FindLastOf(path, '.');
    var start := (dot + 1) % (NPOS + 1);
    assert start == if dot == NPOS then 0 else dot + 1;
    path[start..]
  }

  /** The extension of `stem + "." + ext` is `ext`, whatever the stem holds. */
  lemma ExtensionAfterLastDot(stem: string, ext: string)
    requires '.' !in ext
    requires |stem| + 1 + |ext| < NPOS
    ensures Extension(stem + "." + ext) == ext
  {
    var path := stem + "." + ext;
    assert path[|stem|] == '.';
    assert path[|stem| + 1..] == ext;
  }

  /** The debug assertion on the extension: `a != x || a != y` holds for every
      string, so it never rejects a path. */
  function FormatAssertion(ext: string): (holds: bool)
    ensures holds
  {
    ext != "hdr" || ext != "hdri" || ext != " hdr"
  }

  // ---- prefilter mip sizes and roughness --------------------------------------------

  /** `std::pow(0.5, mip)`, exact in binary floating point for these exponents. */
  function HalfPow(mip: nat): (r: real)
    ensures r > 0.0
  {
    if mip == 0 then 1.0 else 0.5 * HalfPow(mip - 1)
  }

  /** `static_cast<unsigned int>(128 * std::pow(0.5, mip))`: the cast truncates,
      which for a positive value is the floor. */
  function MipSize(mip: nat): (size: nat)
    ensures size as real <= PREFILTER_SIZE as real * HalfPow(mip) < size as real + 1.0
  {
    (PREFILTER_SIZE as real * HalfPow(mip)).Floor
  }

  /** `(float)mip / (float)(max_mip_levels - 1)`: the level's share of the
      last level, within [0, 1] for the rendered levels. */
  function Roughness(mip: nat): (r: real)
    ensures r * (PREFILTER_LEVELS - 1) as real == mip as real
    ensures mip < PREFILTER_LEVELS ==> 0.0 <= r <= 1.0
  {
    mip as real / (PREFILTER_LEVELS - 1) as real
  }

  /** The rendered levels are 128, 64, 32, 16 and 8 pixels square: each is half
      the one before, equals 128 / 2^m, and equals the size GL gives mip
      level m of a 128-pixel cube map. */
  lemma {:induction false} MipSizes()
    ensures MipSize(0) == 128 && MipSize(1) == 64 && MipSize(2) == 32 && MipSize(3) == 16 && MipSize(4) == 8
    ensures forall m | 0 < m < PREFILTER_LEVELS :: 2 * MipSize(m) == MipSize(m - 1)
    ensures forall m | 0 <= m < PREFILTER_LEVELS :: MipSize(m) == PREFILTER_SIZE / Pow2(m) == LevelSide(PREFILTER_SIZE, m)
  {
    assert HalfPow(1) == 0.5;
    assert HalfPow(2) == 0.25;
    assert HalfPow(3) == 0.125;
    assert HalfPow(4) == 0.0625;
    assert Pow2(1) == 2 && Pow2(2) == 4 && Pow2(3) == 8 && Pow2(4) == 16;
    assert LevelSide(8, 0) == 8;
    assert LevelSide(16, 1) == 8;
    assert LevelSide(32, 2) == 8;
    assert LevelSide(64, 3) == 8;
    assert LevelSide(128, 4) == 8;
  }

  /** The roughness of the rendered levels is 0, 1/4, 1/2, 3/4, 1: within
      [0, 1], strictly increasing, 0 at the sharpest level and 1 at the last. */
  lemma RoughnessSchedule()
    ensures Roughness(0) == 0.0 && Roughness(1) == 0.25 && Roughness(2) == 0.5
            && Roughness(3) == 0.75 && Roughness(4) == 1.0
    ensures forall m | 0 <= m < PREFILTER_LEVELS :: 0.0 <= Roughness(m) <= 1.0
    ensures forall m, n | 0 <= m < n < PREFILTER_LEVELS :: Roughness(m) < Roughness(n)
  {
  }

  /** A full mip chain of the 128-pixel prefilter map has 8 levels, so every
      rendered level exists. */
  lemma PrefilterLevelsExist()
    ensures MipLevels(PREFILTER_SIZE) == 8 && PREFILTER_LEVELS <= MipLevels(PREFILTER_SIZE)
  {
    assert MipLevels(1) == 1;
    assert MipLevels(2) == 2;
    assert MipLevels(4) == 3;
    assert MipLevels(8) == 4;
    assert MipLevels(16) == 5;
    assert MipLevels(32) == 6;
    assert MipLevels(64) == 7;
  }

  // ---- the face loops -----------------------------------------------------------------

  /** The part of the GL state that a capture draw records and that no
      capture loop changes. */
  datatype Context = Context(framebuffer: Name, textures: map<Name, TexImage>, depthOf: map<Name, Name>,
                             program: Name, cubeUnits: map<nat, Name>, flatUnits: map<nat, Name>)

  function ContextOf(g: State): Context {
    Context(g.framebuffer, g.textures, g.depthOf, g.program, g.cubeUnits, g.flatUnits)
  }

  /** The draw a capture of face `face` of `tex` at `level` records. */
  function CaptureDraw(ctx: Context, depth: Option<Size>, viewport: Size, roughness: Option<real>,
                       tex: Name, face: nat, level: nat): Draw {
    var c := Some(ColorTarget(tex, Face(face), level));
    Draw(CubeMesh, ctx.framebuffer, c, TargetSize(ctx.textures, c), depth,
         viewport, ctx.program, Some(face), roughness, ctx.cubeUnits, ctx.flatUnits)
  }

  /** One iteration of a face loop: the `view` uniform, the face attached at
      COLOR_ATTACHMENT0, the clear (contents are not modelled), the cube draw. */
  function DrawFace(g: State, tex: Name, face: nat, level: nat): (r: State)
    ensures r == g.(colorOf := r.colorOf, view := Some(face), draws := r.draws)
    ensures g.framebuffer != 0 ==>
              r.draws == g.draws + [CaptureDraw(ContextOf(g), StoredDepth(g, g.framebuffer), g.viewport, g.roughness, tex, face, level)]
  {
    DrawCall(FramebufferTexture(SetView(g, face), 0, ColorTarget(tex, Face(face), level)), CubeMesh)
  }

  /** The draws of faces `i` .. 5, in face order, all seeing the same
      depth storage, viewport and roughness. */
  function FaceDraws(ctx: Context, depth: Option<Size>, viewport: Size, roughness: Option<real>,
                     tex: Name, level: nat, i: nat): seq<Draw>
    requires i <= 6
  {
    seq(6 - i, k requires 0 <= k => CaptureDraw(ctx, depth, viewport, roughness, tex, i + k, level))
  }

  /** Peeling off the first face of a face run. */
  lemma FaceDrawsStep(ctx: Context, depth: Option<Size>, viewport: Size, roughness: Option<real>,
                      tex: Name, level: nat, i: nat)
    requires i < 6
    ensures FaceDraws(ctx, depth, viewport, roughness, tex, level, i)
         == [CaptureDraw(ctx, depth, viewport, roughness, tex, i, level)] + FaceDraws(ctx, depth, viewport, roughness, tex, level, i + 1)
  {
  }

  /** The face loop from face `i` on: it appends the draws of the remaining
      faces to the trace; only the colour attachment, the `view` uniform and
      the trace change. */
  function DrawFaces(g: State, tex: Name, level: nat, i: nat): (r: State)
    requires i <= 6 && g.framebuffer != 0
    ensures r == g.(colorOf := r.colorOf, view := r.view, draws := r.draws)
    ensures r.draws == g.draws + FaceDraws(ContextOf(g), StoredDepth(g, g.framebuffer), g.viewport, g.roughness, tex, level, i)
    decreases 6 - i
  {
    if i == 6 then g
    else
      var g1 := DrawFace(g, tex, i, level);
      var r := DrawFaces(g1, tex, level, i + 1);
      ghost var d := CaptureDraw(ContextOf(g), StoredDepth(g, g.framebuffer), g.viewport, g.roughness, tex, i, level);
      assert ContextOf(g1) == ContextOf(g);
      assert g1.draws == g.draws + [d];
      FaceDrawsStep(ContextOf(g), StoredDepth(g, g.framebuffer), g.viewport, g.roughness, tex, level, i);
      AppendAssoc(g.draws, [d], FaceDraws(ContextOf(g), StoredDepth(g, g.framebuffer), g.viewport, g.roughness, tex, level, i + 1));
      r
  }

  lemma AppendAssoc<T>(a: seq<T>, b: seq<T>, c: seq<T>)
    ensures a + b + c == a + (b + c)
  {
  }

  /** What the prefilter loop sets before the faces of level `mip`: the depth
      storage of whatever renderbuffer binding the handle passed as
      `capture_rbo` leaves, the viewport and the `roughness` uniform. */
  function LevelSetup(g: State, rbo: Name, mip: nat): (r: State)
    ensures r == g.(renderbuffer := RenderbufferBinding(g, rbo), storage := r.storage,
                    viewport := Square(MipSize(mip)), roughness := Some(Roughness(mip)))
    ensures var bound := RenderbufferBinding(g, rbo);
            r.storage == if bound == 0 then g.storage else g.storage[bound := Square(MipSize(mip))]
    ensures RenderbufferBinding(r, rbo) == RenderbufferBinding(g, rbo)
  {
    var size := Square(MipSize(mip));
    SetRoughness(Viewport(RenderbufferStorage(BindRenderbuffer(g, rbo), size), size), Roughness(mip))
  }

  /** The depth storage of the bound framebuffer that the resizes through
      `rbo` cannot reach: `None` when they reach it. */
  function DepthOutOfReach(g: State, rbo: Name): Option<Size> {
    if ReachesAttachedDepth(g, g.framebuffer, rbo) then None else StoredDepth(g, g.framebuffer)
  }

  /** The depth storage the draws of level `m` see. */
  function LevelDepth(attached: bool, untouched: Option<Size>, m: nat): Option<Size> {
    if attached then Some(Square(MipSize(m))) else untouched
  }

  /** The draw of face `face` at level `m` of the prefilter pass. */
  function LevelDraw(ctx: Context, attached: bool, untouched: Option<Size>, tex: Name, m: nat, face: nat): Draw {
    CaptureDraw(ctx, LevelDepth(attached, untouched, m), Square(MipSize(m)), Some(Roughness(m)), tex, face, m)
  }

  /** The draws of levels `mip` .. 4, level-major: draw k renders face k % 6
      of level mip + k / 6. */
  function LevelDraws(ctx: Context, attached: bool, untouched: Option<Size>, tex: Name, mip: nat): seq<Draw>
    requires mip <= PREFILTER_LEVELS
  {
    seq(6 * (5 - mip), k requires 0 <= k => LevelDraw(ctx, attached, untouched, tex, mip + k / 6, k % 6))
  }

  /** Peeling off the six draws of the first level. */
  lemma LevelDrawsStep(ctx: Context, attached: bool, untouched: Option<Size>, tex: Name, mip: nat)
    requires mip < PREFILTER_LEVELS
    ensures LevelDraws(ctx, attached, untouched, tex, mip)
         == FaceDraws(ctx, LevelDepth(attached, untouched, mip), Square(MipSize(mip)), Some(Roughness(mip)), tex, mip, 0)
            + LevelDraws(ctx, attached, untouched, tex, mip + 1)
  {
    var ds := LevelDraws(ctx, attached, untouched, tex, mip);
    var first := FaceDraws(ctx, LevelDepth(attached, untouched, mip), Square(MipSize(mip)), Some(Roughness(mip)), tex, mip, 0);
    var rest := LevelDraws(ctx, attached, untouched, tex, mip + 1);
    forall k | 0 <= k < |ds| ensures ds[k] == (first + rest)[k] {
      if k < 6 {
        assert k / 6 == 0 && k % 6 == k;
      } else {
        assert mip + 1 + (k - 6) / 6 == mip + k / 6 && (k - 6) % 6 == k % 6;
        assert (first + rest)[k] == rest[k - 6];
      }
    }
  }

  /** One level of the prefilter loop: the level's setup, then its six faces. */
  function LevelPass(g: State, rbo: Name, tex: Name, mip: nat): (r: State)
    requires g.framebuffer != 0
    ensures ContextOf(r) == ContextOf(g)
    ensures r.live == g.live && r.events == g.events && r.activeUnit == g.activeUnit
    ensures StorageKept(g, r, RenderbufferBinding(g, rbo)) && RenderbufferBinding(r, rbo) == RenderbufferBinding(g, rbo)
    ensures ReachesAttachedDepth(r, r.framebuffer, rbo) == ReachesAttachedDepth(g, g.framebuffer, rbo) && DepthOutOfReach(r, rbo) == DepthOutOfReach(g, rbo)
    ensures r.draws == g.draws + FaceDraws(ContextOf(g), LevelDepth(ReachesAttachedDepth(g, g.framebuffer, rbo), DepthOutOfReach(g, rbo), mip),
                                           Square(MipSize(mip)), Some(Roughness(mip)), tex, mip, 0)
  {
    var s := LevelSetup(g, rbo, mip);
    assert StoredDepth(s, s.framebuffer) == LevelDepth(ReachesAttachedDepth(g, g.framebuffer, rbo), DepthOutOfReach(g, rbo), mip);
    assert ContextOf(s) == ContextOf(g);
    DrawFaces(s, tex, mip, 0)
  }

  /** The prefilter loop from level `mip` on: it appends the draws of the
      remaining levels and leaves the capture context, the object bookkeeping
      and every renderbuffer's storage but the one that binding `capture_rbo`
      leaves bound as they were. */
  function PrefilterLevels(g: State, rbo: Name, tex: Name, mip: nat): (r: State)
    requires mip <= PREFILTER_LEVELS && g.framebuffer != 0
    ensures ContextOf(r) == ContextOf(g)
    ensures r.live == g.live && r.events == g.events && r.activeUnit == g.activeUnit
    ensures StorageKept(g, r, RenderbufferBinding(g, rbo)) && RenderbufferBinding(r, rbo) == RenderbufferBinding(g, rbo)
    ensures r.draws == g.draws + LevelDraws(ContextOf(g), ReachesAttachedDepth(g, g.framebuffer, rbo), DepthOutOfReach(g, rbo), tex, mip)
    decreases PREFILTER_LEVELS - mip
  {
    if mip == PREFILTER_LEVELS then g
    else
      var g1 := LevelPass(g, rbo, tex, mip);
      var r := PrefilterLevels(g1, rbo, tex, mip + 1);
      LevelDrawsStep(ContextOf(g), ReachesAttachedDepth(g, g.framebuffer, rbo), DepthOutOfReach(g, rbo), tex, mip);
      AppendAssoc(g.draws, FaceDraws(ContextOf(g), LevelDepth(ReachesAttachedDepth(g, g.framebuffer, rbo), DepthOutOfReach(g, rbo), mip),
                                     Square(MipSize(mip)), Some(Roughness(mip)), tex, mip, 0),
                  LevelDraws(ContextOf(g), ReachesAttachedDepth(g, g.framebuffer, rbo), DepthOutOfReach(g, rbo), tex, mip + 1));
      r
  }

  /** Storage of every renderbuffer other than `rbo` is as it was, and all of
      it is when `rbo` is 0 (glRenderbufferStorage then has nothing to size). */
  ghost predicate StorageKept(g: State, r: State, rbo: Name) {
    && (rbo == 0 ==> r.storage == g.storage)
    && forall n | n != rbo :: (n in r.storage <==> n in g.storage) && (n in g.storage ==> r.storage[n] == g.storage[n])
  }

  // ---- what a capture run looks like ---------------------------------------------------

  /** The texture a draw samples through unit `unit` of the given target. */
  function Sampled(d: Draw, kind: Kind, unit: nat): Name {
    match kind
    case Cube => UnitTexture(d.cubeUnits, unit)
    case Flat => UnitTexture(d.flatUnits, unit)
  }

  /** A capture draw of face `face` of `tex` at `level` into `fbo`: the cube
      mesh, drawn with `program`, with the `view` uniform selecting that
      face's view, the attached level `viewport`-sized, the given depth
      storage, and `source` on unit 0 of `sampler`. */
  predicate CaptureOf(d: Draw, tex: Name, face: nat, level: nat, viewport: Size, depth: Option<Size>,
                      fbo: Name, program: Name, sampler: Kind, source: Name) {
    && d.primitive == CubeMesh
    && d.framebuffer == fbo
    && d.color == Some(ColorTarget(tex, Face(face), level))
    && d.view == Some(face)
    && d.viewport == viewport
    && d.colorSize == Some(viewport)
    && d.depth == depth
    && d.program == program
    && Sampled(d, sampler, 0) == source
  }

  /** Six capture draws, draw k rendering face k (+X, -X, +Y, -Y, +Z, -Z). */
  predicate FaceRun(ds: seq<Draw>, tex: Name, level: nat, viewport: Size, depth: Option<Size>,
                    fbo: Name, program: Name, sampler: Kind, source: Name) {
    |ds| == FACES && forall k | 0 <= k < |ds| :: CaptureOf(ds[k], tex, k, level, viewport, depth, fbo, program, sampler, source)
  }

  function SampledIn(ctx: Context, kind: Kind, unit: nat): Name {
    match kind
    case Cube => UnitTexture(ctx.cubeUnits, unit)
    case Flat => UnitTexture(ctx.flatUnits, unit)
  }

  /** The face loop over a texture whose level `level` exists and has the
      viewport's size is a capture run. */
  lemma FaceDrawsRun(ctx: Context, depth: Option<Size>, viewport: Size, roughness: Option<real>,
                     tex: Name, level: nat, sampler: Kind)
    requires tex in ctx.textures && level < ctx.textures[tex].levels && LevelSize(ctx.textures[tex], level) == viewport
    ensures FaceRun(FaceDraws(ctx, depth, viewport, roughness, tex, level, 0), tex, level, viewport, depth,
                    ctx.framebuffer, ctx.program, sampler, SampledIn(ctx, sampler, 0))
  {
    var ds := FaceDraws(ctx, depth, viewport, roughness, tex, level, 0);
    forall k | 0 <= k < |ds|
      ensures CaptureOf(ds[k], tex, k, level, viewport, depth, ctx.framebuffer, ctx.program, sampler, SampledIn(ctx, sampler, 0))
    {
      assert ds[k] == CaptureDraw(ctx, depth, viewport, roughness, tex, k, level);
    }
  }

  lemma AppendSlices<T>(a: seq<T>, b: seq<T>)
    ensures (a + b)[..|a|] == a && (a + b)[|a|..] == b
  {
  }

  /** Whether binding the handle `rbo` leaves the (non-zero) depth
      renderbuffer attached to `fbo` bound: `rbo` is that renderbuffer, or
      `rbo` names no live renderbuffer and that one was bound already. */
  function ReachesAttachedDepth(g: State, fbo: Name, rbo: Name): bool {
    var bound := RenderbufferBinding(g, rbo);
    bound != 0 && AttachedDepth(g, fbo) == Some(bound)
  }

  /** What the depth renderbuffer of `fbo` holds after the pass bound the
      handle `rbo` and sized the bound renderbuffer to `size`: `size` when the
      resize reached that renderbuffer, and otherwise whatever it held before. */
  function Resized(g: State, fbo: Name, rbo: Name, size: Size): Option<Size> {
    if ReachesAttachedDepth(g, fbo, rbo) then Some(size) else StoredDepth(g, fbo)
  }

  // ---- shared steps of the passes ---------------------------------------------------------

  /** glGenTextures + glBindTexture(GL_TEXTURE_CUBE_MAP) on the active unit +
      the six glTexImage2D calls: a `size`-square RGB16F cube map with one level. */
  function NewCubemap(g: State, tex: Name, size: nat): (r: State)
    requires tex != 0
    ensures r == g.(textures := g.textures[tex := TexImage(Cube, Square(size), RGB16F, 1)],
                    cubeUnits := g.cubeUnits[g.activeUnit := tex],
                    live := g.live + {Tex(tex)}, events := g.events + [Created(Tex(tex))])
  {
    TexImage2D(BindTexture(Gen(g, Tex(tex)), Cube, tex), Cube, Square(size), RGB16F)
  }

  /** glBindFramebuffer(capture_fbo), glBindRenderbuffer(capture_rbo) and
      glRenderbufferStorage(size x size): the storage lands on whatever
      renderbuffer the bind leaves bound. */
  function ResizeCapture(g: State, fbo: Name, rbo: Name, size: nat): (r: State)
    ensures r == g.(framebuffer := fbo, renderbuffer := RenderbufferBinding(g, rbo), storage := r.storage)
    ensures var bound := RenderbufferBinding(g, rbo);
            r.storage == if bound == 0 then g.storage else g.storage[bound := Square(size)]
    ensures fbo != 0 ==> StoredDepth(r, fbo) == Resized(g, fbo, rbo, Square(size))
  {
    RenderbufferStorage(BindRenderbuffer(BindFramebuffer(g, fbo), rbo), Square(size))
  }

  /** glActiveTexture(GL_TEXTURE0) + glBindTexture(GL_TEXTURE_CUBE_MAP, env):
      the source of the irradiance and prefilter convolutions. */
  function BindEnvironment(g: State, env: Name): (r: State)
    ensures r == g.(activeUnit := 0, cubeUnits := r.cubeUnits)
    ensures UnitTexture(r.cubeUnits, 0) == env
    ensures forall u | u != 0 :: UnitTexture(r.cubeUnits, u) == UnitTexture(g.cubeUnits, u)
  {
    BindTexture(ActiveTexture(g, 0), Cube, env)
  }

  /** glViewport(size), glBindFramebuffer(capture_fbo), the face loop at
      level 0 into `tex`, glBindFramebuffer(0): the common tail of the
      equirectangular and irradiance passes. When `tex` is a `size`-square
      cube map, this is a run of six capture draws. */
  function CaptureFaces(g: State, fbo: Name, tex: Name, size: nat): (r: State)
    requires fbo != 0
    requires tex in g.textures && g.textures[tex] == TexImage(Cube, Square(size), RGB16F, 1)
    ensures r == g.(framebuffer := 0, viewport := Square(size), colorOf := r.colorOf, view := r.view, draws := r.draws)
    ensures |r.draws| == |g.draws| + FACES && r.draws[..|g.draws|] == g.draws
    ensures FaceRun(r.draws[|g.draws|..], tex, 0, Square(size), StoredDepth(g, fbo), fbo, g.program, Flat, UnitTexture(g.flatUnits, 0))
    ensures FaceRun(r.draws[|g.draws|..], tex, 0, Square(size), StoredDepth(g, fbo), fbo, g.program, Cube, UnitTexture(g.cubeUnits, 0))
  {
    var g1 := BindFramebuffer(Viewport(g, Square(size)), fbo);
    assert StoredDepth(g1, fbo) == StoredDepth(g, fbo);
    var g2 := DrawFaces(g1, tex, 0, 0);
    var ds := FaceDraws(ContextOf(g1), StoredDepth(g, fbo), Square(size), g.roughness, tex, 0, 0);
    FaceDrawsRun(ContextOf(g1), StoredDepth(g, fbo), Square(size), g.roughness, tex, 0, Flat);
    FaceDrawsRun(ContextOf(g1), StoredDepth(g, fbo), Square(size), g.roughness, tex, 0, Cube);
    AppendSlices(g.draws, ds);
    BindFramebuffer(g2, 0)
  }

  // ---- Ibl::CubemapFromHDRI ---------------------------------------------------------------

  /** Everything `CubemapFromHDRI` does before binding its program: the image
      texture, the capture framebuffer with its 512x512 depth renderbuffer
      (left bound), and the empty 512x512 cube map. */
  function CubemapTargets(g: State, path: string, hdr: Name, fbo: Name, rbo: Name, cube: Name,
                          decoded: Option<Texture2D.Image>): (r: Texture2D.Made)
    requires hdr != 0 && fbo != 0 && rbo != 0 && cube != 0 && hdr != cube
    ensures r.texture.id == hdr && (r.texture.initialized <==> decoded.Some?)
    ensures r.gl.framebuffer == fbo && r.gl.program == g.program && r.gl.draws == g.draws
    ensures AttachedDepth(r.gl, fbo) == Some(rbo) && StoredDepth(r.gl, fbo) == Some(Square(CUBEMAP_SIZE))
    ensures r.gl.renderbuffer == rbo
    ensures cube in r.gl.textures && r.gl.textures[cube] == TexImage(Cube, Square(CUBEMAP_SIZE), RGB16F, 1)
    ensures r.gl.live == g.live + {Tex(hdr), Fbo(fbo), Rbo(rbo), Tex(cube)}
    ensures r.gl.events == g.events + [Created(Tex(hdr)), Decoded(path), Created(Fbo(fbo)), Created(Rbo(rbo)), Created(Tex(cube))]
  {
    var made := Texture2D.WithFormat(g, hdr, path, RGBA16F, decoded);
    var g1 := FramebufferRenderbuffer(ResizeCapture(Gen(Gen(made.gl, Fbo(fbo)), Rbo(rbo)), fbo, rbo, CUBEMAP_SIZE), rbo);
    assert g1.events == g.events + [Created(Tex(hdr)), Decoded(path), Created(Fbo(fbo)), Created(Rbo(rbo))];
    made.(gl := NewCubemap(g1, cube, CUBEMAP_SIZE))
  }

  /** `CubemapFromHDRI`: loads the equirectangular image as an RGBA16F
      texture (`decoded` is what the float decoder returns, None on failure),
      creates the capture framebuffer `fbo` with a 512x512 depth renderbuffer
      `rbo`, creates the 512x512 RGB16F cube map `cube`, and renders each of
      its six faces at level 0 with the image on 2D unit 0. The image texture
      is deleted when its wrapper goes out of scope. `hdr`, `fbo`, `rbo` and
      `cube` are the names glGen* hands out. A program that was never linked
      (id 0) makes `Bind` throw; a failed decode trips the assertion in the
      image's `Bind`. */
  function CubemapFromHdri(g: State, path: string, hdr: Name, fbo: Name, rbo: Name, cube: Name,
                           program: Shader.Program, decoded: Option<Texture2D.Image>): (r: Result<State, Fault>)
    requires |path| < NPOS
    requires hdr != 0 && fbo != 0 && rbo != 0 && cube != 0 && hdr != cube
    ensures r.Failure? <==> program.id == 0 || decoded.None?
    ensures r.Failure? ==> r.error == if program.id == 0 then ShaderNotInitialized else TextureNotInitialized
  {
    var ext := Extension(path);
    assert FormatAssertion(ext);
    var made := CubemapTargets(g, path, hdr, fbo, rbo, cube, decoded);
    var g1 :- Shader.Bind(made.gl, program);
    var g2 :- Texture2D.Bind(g1, made.texture, 0);
    Success(DeleteTexture(CaptureFaces(g2, fbo, cube, CUBEMAP_SIZE), hdr))
  }

  /** The state `CubemapFromHDRI` leaves: framebuffer 0 bound; six draws
      appended, draw k rendering face k of the cube map at level 0 with a
      512x512 viewport and 512x512 depth storage while the image is on 2D
      unit 0; the 512x512 cube map and the capture objects exist, with the
      depth renderbuffer attached; the image texture is gone again. */
  ghost predicate CubemapBuilt(g: State, h: State, path: string, hdr: Name, fbo: Name, rbo: Name, cube: Name, program: Name) {
    && h.framebuffer == 0
    && |h.draws| == |g.draws| + FACES && h.draws[..|g.draws|] == g.draws
    && FaceRun(h.draws[|g.draws|..], cube, 0, Square(CUBEMAP_SIZE), Some(Square(CUBEMAP_SIZE)), fbo, program, Flat, hdr)
    && cube in h.textures && h.textures[cube] == TexImage(Cube, Square(CUBEMAP_SIZE), RGB16F, 1)
    && AttachedDepth(h, fbo) == Some(rbo) && StoredDepth(h, fbo) == Some(Square(CUBEMAP_SIZE))
    && h.renderbuffer == rbo
    && h.live == g.live + {Tex(hdr), Fbo(fbo), Rbo(rbo), Tex(cube)} - {Tex(hdr)}
    && h.events == g.events + [Created(Tex(hdr)), Decoded(path), Created(Fbo(fbo)), Created(Rbo(rbo)), Created(Tex(cube))]
                            + [Deleted(Tex(hdr))]
  }

  /** The end of `CubemapFromHDRI` after its binds: the faces, framebuffer
      0, and the image wrapper's destructor. */
  lemma CubemapTail(g2: State, fbo: Name, rbo: Name, cube: Name, hdr: Name)
    requires fbo != 0 && hdr != 0 && hdr != cube
    requires cube in g2.textures && g2.textures[cube] == TexImage(Cube, Square(CUBEMAP_SIZE), RGB16F, 1)
    requires AttachedDepth(g2, fbo) == Some(rbo) && StoredDepth(g2, fbo) == Some(Square(CUBEMAP_SIZE))
    requires UnitTexture(g2.flatUnits, 0) == hdr
    ensures var h := DeleteTexture(CaptureFaces(g2, fbo, cube, CUBEMAP_SIZE), hdr);
            && h.framebuffer == 0
            && |h.draws| == |g2.draws| + FACES && h.draws[..|g2.draws|] == g2.draws
            && FaceRun(h.draws[|g2.draws|..], cube, 0, Square(CUBEMAP_SIZE), Some(Square(CUBEMAP_SIZE)), fbo, g2.program, Flat, hdr)
            && cube in h.textures && h.textures[cube] == TexImage(Cube, Square(CUBEMAP_SIZE), RGB16F, 1)
            && AttachedDepth(h, fbo) == Some(rbo) && StoredDepth(h, fbo) == Some(Square(CUBEMAP_SIZE))
            && h.renderbuffer == g2.renderbuffer
            && h.live == g2.live - {Tex(hdr)}
            && h.events == g2.events + [Deleted(Tex(hdr))]
  {
    var g3 := CaptureFaces(g2, fbo, cube, CUBEMAP_SIZE);
    var h := DeleteTexture(g3, hdr);
    assert h.draws == g3.draws && h.depthOf == g2.depthOf && h.storage == g2.storage;
    assert h.textures == g2.textures - {hdr} || h.textures == g2.textures;
  }

  lemma CubemapFromHdriBuilds(g: State, path: string, hdr: Name, fbo: Name, rbo: Name, cube: Name,
                              program: Shader.Program, decoded: Option<Texture2D.Image>)
    requires |path| < NPOS
    requires hdr != 0 && fbo != 0 && rbo != 0 && cube != 0 && hdr != cube
    ensures var r := CubemapFromHdri(g, path, hdr, fbo, rbo, cube, program, decoded);
            r.Success? ==> CubemapBuilt(g, r.value, path, hdr, fbo, rbo, cube, program.id)
  {
    if program.id != 0 && decoded.Some? {
      var made := CubemapTargets(g, path, hdr, fbo, rbo, cube, decoded);
      var g1 := made.gl.(program := program.id);
      var g2 := Texture2D.Bind(g1, made.texture, 0).value;
      assert g2 == g1.(activeUnit := 0, flatUnits := g1.flatUnits[0 := hdr]);
      assert g2.live == made.gl.live && g2.events == made.gl.events && g2.draws == g.draws && g2.program == program.id;
      CubemapTail(g2, fbo, rbo, cube, hdr);
      var h := DeleteTexture(CaptureFaces(g2, fbo, cube, CUBEMAP_SIZE), hdr);
      assert CubemapFromHdri(g, path, hdr, fbo, rbo, cube, program, decoded) == Success(h);
    }
  }

  /** Every draw of a capture run lands consistently (depth storage, viewport
      and attached level all of one size) exactly when the run's depth
      storage has the viewport's size. */
  lemma FaceRunConsistent(ds: seq<Draw>, tex: Name, level: nat, viewport: Size, depth: Option<Size>,
                          fbo: Name, program: Name, sampler: Kind, source: Name)
    requires FaceRun(ds, tex, level, viewport, depth, fbo, program, sampler, source)
    ensures (forall k | 0 <= k < |ds| :: Consistent(ds[k])) <==> depth == Some(viewport)
  {
    assert CaptureOf(ds[0], tex, 0, level, viewport, depth, fbo, program, sampler, source);
  }

  // ---- Ibl::CreateIrradianceMap -------------------------------------------------------------

  /** `CreateIrradianceMap`: creates the 32x32 RGB16F cube map `irr`, sizes
      the renderbuffer named by `rbo` to 32x32, binds the environment map on
      cube unit 0 and renders the six faces of `irr` at level 0 into `fbo`.
      The renderer passes the framebuffer's handle as `rbo` (see
      `Lifecycle.Build`): when that number is a live renderbuffer the resize
      lands there, and otherwise the bind fails and the renderbuffer bound
      before is resized. */
  function CreateIrradianceMap(g: State, fbo: Name, rbo: Name, program: Shader.Program, env: Name, irr: Name)
    : (r: Result<State, Fault>)
    requires fbo != 0 && irr != 0
    ensures r.Failure? <==> program.id == 0
    ensures r.Failure? ==> r.error == ShaderNotInitialized
  {
    var g1 := ResizeCapture(NewCubemap(g, irr, IRRADIANCE_SIZE), fbo, rbo, IRRADIANCE_SIZE);
    var g2 :- Shader.Bind(g1, program);
    Success(CaptureFaces(BindEnvironment(g2, env), fbo, irr, IRRADIANCE_SIZE))
  }

  /** The state `CreateIrradianceMap` leaves: framebuffer 0 bound; six draws
      appended, draw k rendering face k of `irr` at level 0 with a 32x32
      viewport and the environment map on cube unit 0, over the depth storage
      of `fbo` as the resize left it; `irr` holds a 32x32 cube map; only the
      renderbuffer the bind of `rbo` left bound changed size. */
  ghost predicate IrradianceBuilt(g: State, h: State, fbo: Name, rbo: Name, program: Name, env: Name, irr: Name) {
    && h.framebuffer == 0
    && |h.draws| == |g.draws| + FACES && h.draws[..|g.draws|] == g.draws
    && FaceRun(h.draws[|g.draws|..], irr, 0, Square(IRRADIANCE_SIZE), Resized(g, fbo, rbo, Square(IRRADIANCE_SIZE)),
               fbo, program, Cube, env)
    && irr in h.textures && h.textures[irr] == TexImage(Cube, Square(IRRADIANCE_SIZE), RGB16F, 1)
    && h.depthOf == g.depthOf
    && h.renderbuffer == RenderbufferBinding(g, rbo)
    && h.storage == (var bound := RenderbufferBinding(g, rbo);
                     if bound == 0 then g.storage else g.storage[bound := Square(IRRADIANCE_SIZE)])
    && h.live == g.live + {Tex(irr)}
    && h.events == g.events + [Created(Tex(irr))]
  }

  lemma CreateIrradianceMapBuilds(g: State, fbo: Name, rbo: Name, program: Shader.Program, env: Name, irr: Name)
    requires fbo != 0 && irr != 0
    ensures var r := CreateIrradianceMap(g, fbo, rbo, program, env, irr);
            r.Success? ==> IrradianceBuilt(g, r.value, fbo, rbo, program.id, env, irr)
  {
    if program.id != 0 {
      var g0 := NewCubemap(g, irr, IRRADIANCE_SIZE);
      assert Rbo(rbo) in g0.live <==> Rbo(rbo) in g.live;
      assert RenderbufferBinding(g0, rbo) == RenderbufferBinding(g, rbo);
      var g1 := ResizeCapture(g0, fbo, rbo, IRRADIANCE_SIZE);
      assert Resized(g0, fbo, rbo, Square(IRRADIANCE_SIZE)) == Resized(g, fbo, rbo, Square(IRRADIANCE_SIZE));
      var g3 := BindEnvironment(g1.(program := program.id), env);
      assert StoredDepth(g3, fbo) == Resized(g, fbo, rbo, Square(IRRADIANCE_SIZE));
      var h := CaptureFaces(g3, fbo, irr, IRRADIANCE_SIZE);
      assert CreateIrradianceMap(g, fbo, rbo, program, env, irr) == Success(h);
    }
  }

  /** The irradiance draws all land consistently exactly when the resize
      left 32x32 depth for `fbo` — in particular whenever binding `rbo` leaves
      the renderbuffer attached to `fbo` bound. */
  lemma IrradianceConsistent(g: State, h: State, fbo: Name, rbo: Name, program: Name, env: Name, irr: Name)
    requires IrradianceBuilt(g, h, fbo, rbo, program, env, irr)
    ensures var run := h.draws[|g.draws|..];
            (forall k | 0 <= k < |run| :: Consistent(run[k])) <==> Resized(g, fbo, rbo, Square(IRRADIANCE_SIZE)) == Some(Square(IRRADIANCE_SIZE))
    ensures ReachesAttachedDepth(g, fbo, rbo) ==>
            forall k | |g.draws| <= k < |h.draws| :: Consistent(h.draws[k])
  {
    var run := h.draws[|g.draws|..];
    FaceRunConsistent(run, irr, 0, Square(IRRADIANCE_SIZE), Resized(g, fbo, rbo, Square(IRRADIANCE_SIZE)), fbo, program, Cube, env);
    if ReachesAttachedDepth(g, fbo, rbo) {
      forall k | |g.draws| <= k < |h.draws| ensures Consistent(h.draws[k]) {
        assert h.draws[k] == run[k - |g.draws|];
      }
    }
  }

  // ---- Ibl::CreatePrefilterMap --------------------------------------------------------------

  /** Draw `k` of the prefilter pass: face k % 6 of level m = k / 6, with an
      m-sized viewport and attached level, roughness m / 4, and the
      environment map on cube unit 0. */
  predicate PrefilterOf(d: Draw, k: nat, tex: Name, fbo: Name, program: Name, source: Name, attached: bool, untouched: Option<Size>) {
    var m := k / 6;
    && d.primitive == CubeMesh
    && d.framebuffer == fbo
    && d.color == Some(ColorTarget(tex, Face(k % 6), m))
    && d.view == Some(k % 6)
    && d.viewport == Square(MipSize(m))
    && d.colorSize == Some(Square(MipSize(m)))
    && d.depth == LevelDepth(attached, untouched, m)
    && d.roughness == Some(Roughness(m))
    && d.program == program
    && Sampled(d, Cube, 0) == source
  }

  predicate PrefilterRun(ds: seq<Draw>, tex: Name, fbo: Name, program: Name, source: Name, attached: bool, untouched: Option<Size>) {
    |ds| == FACES * PREFILTER_LEVELS
    && forall k | 0 <= k < |ds| :: PrefilterOf(ds[k], k, tex, fbo, program, source, attached, untouched)
  }

  /** The prefilter map's storage after glGenerateMipmap: 128x128 with all
      eight levels. */
  function PrefilterImage(): TexImage {
    TexImage(Cube, Square(PREFILTER_SIZE), RGB16F, MipLevels(PREFILTER_SIZE))
  }

  /** The level-major draws over the prefilter map form a prefilter run: the
      attached level of each draw exists and has that level's size. */
  lemma LevelDrawsRun(ctx: Context, attached: bool, untouched: Option<Size>, tex: Name)
    requires tex in ctx.textures && ctx.textures[tex] == PrefilterImage()
    ensures PrefilterRun(LevelDraws(ctx, attached, untouched, tex, 0), tex, ctx.framebuffer, ctx.program,
                         UnitTexture(ctx.cubeUnits, 0), attached, untouched)
  {
    MipSizes();
    PrefilterLevelsExist();
    var ds := LevelDraws(ctx, attached, untouched, tex, 0);
    forall k | 0 <= k < |ds|
      ensures PrefilterOf(ds[k], k, tex, ctx.framebuffer, ctx.program, UnitTexture(ctx.cubeUnits, 0), attached, untouched)
    {
      var m := k / 6;
      assert ds[k] == LevelDraw(ctx, attached, untouched, tex, m, k % 6);
      assert LevelSize(ctx.textures[tex], m) == Square(MipSize(m));
    }
  }

  /** The prefilter map's creation: a 128x128 cube map, then glGenerateMipmap. */
  function NewPrefilterMap(g: State, pre: Name): (r: State)
    requires pre != 0
    ensures r == g.(textures := g.textures[pre := PrefilterImage()], cubeUnits := g.cubeUnits[g.activeUnit := pre],
                    live := g.live + {Tex(pre)}, events := g.events + [Created(Tex(pre))])
  {
    GenerateMipmap(NewCubemap(g, pre, PREFILTER_SIZE), Cube)
  }

  /** `CreatePrefilterMap`: creates the 128x128 RGB16F cube map `pre` with a
      full mip chain, binds the environment map on cube unit 0, and for each
      of the five levels binds `rbo`, sizes the bound renderbuffer and the
      viewport to the level, sets the roughness and renders the six faces of
      that level into `fbo`. */
  function CreatePrefilterMap(g: State, fbo: Name, rbo: Name, program: Shader.Program, env: Name, pre: Name)
    : (r: Result<State, Fault>)
    requires fbo != 0 && pre != 0
    ensures r.Failure? <==> program.id == 0
    ensures r.Failure? ==> r.error == ShaderNotInitialized
  {
    var g1 := NewPrefilterMap(g, pre);
    var g2 :- Shader.Bind(g1, program);
    Success(PrefilterRender(g2, fbo, rbo, env, pre))
  }

  /** The state `CreatePrefilterMap` leaves: framebuffer 0 bound; thirty
      draws appended in level-major order as `PrefilterRun` describes, their
      depth storage being the level's size if the level resizes reach the
      renderbuffer attached to `fbo` and the untouched storage of `fbo`
      otherwise; `pre` holds the 128x128 map with all its levels. */
  ghost predicate PrefilterBuilt(g: State, h: State, fbo: Name, rbo: Name, program: Name, env: Name, pre: Name) {
    && h.framebuffer == 0
    && |h.draws| == |g.draws| + FACES * PREFILTER_LEVELS && h.draws[..|g.draws|] == g.draws
    && PrefilterRun(h.draws[|g.draws|..], pre, fbo, program, env, ReachesAttachedDepth(g, fbo, rbo), StoredDepth(g, fbo))
    && pre in h.textures && h.textures[pre] == PrefilterImage()
    && h.depthOf == g.depthOf
    && StorageKept(g, h, RenderbufferBinding(g, rbo))
    && h.live == g.live + {Tex(pre)}
    && h.events == g.events + [Created(Tex(pre))]
    && UnitTexture(h.cubeUnits, 0) == env
  }

  /** Prefilter runs over the same untouched storage agree whichever way it
      is described when `rbo` is attached. */
  lemma PrefilterRunUntouched(ds: seq<Draw>, tex: Name, fbo: Name, program: Name, source: Name, attached: bool,
                              u1: Option<Size>, u2: Option<Size>)
    requires PrefilterRun(ds, tex, fbo, program, source, attached, u1)
    requires attached || u1 == u2
    ensures PrefilterRun(ds, tex, fbo, program, source, attached, u2)
  {
    forall k | 0 <= k < |ds| ensures PrefilterOf(ds[k], k, tex, fbo, program, source, attached, u2) {
      assert PrefilterOf(ds[k], k, tex, fbo, program, source, attached, u1);
    }
  }

  /** From the bound program on: the environment map on cube unit 0, the
      capture framebuffer, the level loop and the final unbind. */
  function PrefilterRender(g: State, fbo: Name, rbo: Name, env: Name, pre: Name): (h: State)
    requires fbo != 0
    requires pre in g.textures && g.textures[pre] == PrefilterImage()
    ensures h.framebuffer == 0
    ensures |h.draws| == |g.draws| + FACES * PREFILTER_LEVELS && h.draws[..|g.draws|] == g.draws
    ensures PrefilterRun(h.draws[|g.draws|..], pre, fbo, g.program, env, ReachesAttachedDepth(g, fbo, rbo), StoredDepth(g, fbo))
    ensures h.textures == g.textures && h.depthOf == g.depthOf && StorageKept(g, h, RenderbufferBinding(g, rbo))
    ensures h.live == g.live && h.events == g.events
    ensures UnitTexture(h.cubeUnits, 0) == env && h.flatUnits == g.flatUnits
  {
    var g3 := BindFramebuffer(BindEnvironment(g, env), fbo);
    assert ReachesAttachedDepth(g3, g3.framebuffer, rbo) == ReachesAttachedDepth(g, fbo, rbo);
    assert StoredDepth(g3, fbo) == StoredDepth(g, fbo);
    var ds := LevelDraws(ContextOf(g3), ReachesAttachedDepth(g3, g3.framebuffer, rbo), DepthOutOfReach(g3, rbo), pre, 0);
    LevelDrawsRun(ContextOf(g3), ReachesAttachedDepth(g3, g3.framebuffer, rbo), DepthOutOfReach(g3, rbo), pre);
    AppendSlices(g.draws, ds);
    PrefilterRunUntouched(ds, pre, fbo, g.program, env, ReachesAttachedDepth(g3, g3.framebuffer, rbo), DepthOutOfReach(g3, rbo), StoredDepth(g, fbo));
    BindFramebuffer(PrefilterLevels(g3, rbo, pre, 0), 0)
  }

  lemma CreatePrefilterMapBuilds(g: State, fbo: Name, rbo: Name, program: Shader.Program, env: Name, pre: Name)
    requires fbo != 0 && pre != 0
    ensures var r := CreatePrefilterMap(g, fbo, rbo, program, env, pre);
            r.Success? ==> PrefilterBuilt(g, r.value, fbo, rbo, program.id, env, pre)
  {
    if program.id != 0 {
      var g2 := NewPrefilterMap(g, pre).(program := program.id);
      assert Rbo(rbo) in g2.live <==> Rbo(rbo) in g.live;
      assert RenderbufferBinding(g2, rbo) == RenderbufferBinding(g, rbo);
      assert ReachesAttachedDepth(g2, fbo, rbo) == ReachesAttachedDepth(g, fbo, rbo) && StoredDepth(g2, fbo) == StoredDepth(g, fbo);
      var h := PrefilterRender(g2, fbo, rbo, env, pre);
      assert CreatePrefilterMap(g, fbo, rbo, program, env, pre) == Success(h);
    }
  }

  /** Each (face, level) pair of the prefilter map is attached at exactly one
      draw of the run: draw 6m + f renders face f of level m, and no two
      draws share a target. */
  lemma PrefilterPairsOnce(ds: seq<Draw>, tex: Name, fbo: Name, program: Name, source: Name, attached: bool, untouched: Option<Size>)
    requires PrefilterRun(ds, tex, fbo, program, source, attached, untouched)
    ensures forall m, f | 0 <= m < PREFILTER_LEVELS && 0 <= f < FACES ::
              6 * m + f < |ds| && ds[6 * m + f].color == Some(ColorTarget(tex, Face(f), m))
    ensures forall i, j | 0 <= i < j < |ds| :: ds[i].color != ds[j].color
  {
    forall m, f | 0 <= m < PREFILTER_LEVELS && 0 <= f < FACES
      ensures 6 * m + f < |ds| && ds[6 * m + f].color == Some(ColorTarget(tex, Face(f), m))
    {
      var k := 6 * m + f;
      assert k / 6 == m && k % 6 == f;
      assert PrefilterOf(ds[k], k, tex, fbo, program, source, attached, untouched);
    }
    forall i, j | 0 <= i < j < |ds| ensures ds[i].color != ds[j].color {
      assert PrefilterOf(ds[i], i, tex, fbo, program, source, attached, untouched);
      assert PrefilterOf(ds[j], j, tex, fbo, program, source, attached, untouched);
      assert i / 6 != j / 6 || i % 6 != j % 6;
    }
  }

  /** Every prefilter draw lands consistently exactly when the level resizes
      reach the depth renderbuffer of the capture framebuffer: the levels have
      five different sizes, so no storage the loop leaves alone can match all
      of them. */
  lemma PrefilterConsistentIff(ds: seq<Draw>, tex: Name, fbo: Name, program: Name, source: Name, attached: bool, untouched: Option<Size>)
    requires PrefilterRun(ds, tex, fbo, program, source, attached, untouched)
    ensures (forall k | 0 <= k < |ds| :: Consistent(ds[k])) <==> attached
  {
    MipSizes();
    if !attached {
      assert PrefilterOf(ds[0], 0, tex, fbo, program, source, attached, untouched);
      assert PrefilterOf(ds[6], 6, tex, fbo, program, source, attached, untouched);
      assert 6 / 6 == 1;
      assert !(Consistent(ds[0]) && Consistent(ds[6]));
    } else {
      forall k | 0 <= k < |ds| ensures Consistent(ds[k]) {
        assert PrefilterOf(ds[k], k, tex, fbo, program, source, attached, untouched);
      }
    }
  }

  // ---- Ibl::CreateBRDFLookupTexture ----------------------------------------------------------

  /** glGenTextures + glBindTexture(GL_TEXTURE_2D) on the active unit +
      glTexImage2D: the 512x512 RG16F lookup texture. */
  function NewLookupTexture(g: State, lut: Name): (r: State)
    requires lut != 0
    ensures r == g.(textures := g.textures[lut := TexImage(Flat, Square(BRDF_SIZE), RG16F, 1)],
                    flatUnits := g.flatUnits[g.activeUnit := lut],
                    live := g.live + {Tex(lut)}, events := g.events + [Created(Tex(lut))])
  {
    TexImage2D(BindTexture(Gen(g, Tex(lut)), Flat, lut), Flat, Square(BRDF_SIZE), RG16F)
  }

  /** `CreateBRDFLookupTexture`: creates the 512x512 RG16F texture `lut`,
      binds `rbo` and sizes the bound renderbuffer to 512x512, attaches `lut` to
      `fbo` and draws one screen quad with the BRDF program. */
  function CreateBrdfLookupTexture(g: State, fbo: Name, rbo: Name, program: Shader.Program, lut: Name): (r: Result<State, Fault>)
    requires fbo != 0 && lut != 0
    ensures r.Failure? <==> program.id == 0
    ensures r.Failure? ==> r.error == ShaderNotInitialized
  {
    var g1 := ResizeCapture(NewLookupTexture(g, lut), fbo, rbo, BRDF_SIZE);
    var g2 := Viewport(FramebufferTexture(g1, 0, ColorTarget(lut, Whole, 0)), Square(BRDF_SIZE));
    var g3 :- Shader.Bind(g2, program);
    Success(BindFramebuffer(DrawCall(g3, QuadMesh), 0))
  }

  /** The quad draw into the whole of `lut` at level 0 with a 512x512
      viewport, over the given depth storage. */
  predicate LookupDraw(d: Draw, fbo: Name, program: Name, lut: Name, depth: Option<Size>) {
    && d.primitive == QuadMesh && d.framebuffer == fbo && d.program == program
    && d.color == Some(ColorTarget(lut, Whole, 0)) && d.colorSize == Some(Square(BRDF_SIZE))
    && d.viewport == Square(BRDF_SIZE) && d.depth == depth
  }

  /** The state `CreateBRDFLookupTexture` leaves: framebuffer 0 bound; one
      quad draw appended into the whole of `lut` at level 0 with a 512x512
      viewport over the depth storage of `fbo` as the resize left it; `lut`
      holds the 512x512 RG16F image and stays attached to `fbo`. */
  ghost predicate BrdfBuilt(g: State, h: State, fbo: Name, rbo: Name, program: Name, lut: Name) {
    && h.framebuffer == 0
    && |h.draws| == |g.draws| + 1 && h.draws[..|g.draws|] == g.draws
    && LookupDraw(h.draws[|g.draws|], fbo, program, lut, Resized(g, fbo, rbo, Square(BRDF_SIZE)))
    && lut in h.textures && h.textures[lut] == TexImage(Flat, Square(BRDF_SIZE), RG16F, 1)
    && (fbo, 0) in h.colorOf && h.colorOf[(fbo, 0)] == ColorTarget(lut, Whole, 0)
    && h.depthOf == g.depthOf
    && h.storage == (var bound := RenderbufferBinding(g, rbo);
                     if bound == 0 then g.storage else g.storage[bound := Square(BRDF_SIZE)])
    && h.live == g.live + {Tex(lut)}
    && h.events == g.events + [Created(Tex(lut))]
    && h.cubeUnits == g.cubeUnits
  }

  lemma CreateBrdfLookupTextureBuilds(g: State, fbo: Name, rbo: Name, program: Shader.Program, lut: Name)
    requires fbo != 0 && lut != 0
    ensures var r := CreateBrdfLookupTexture(g, fbo, rbo, program, lut);
            r.Success? ==> BrdfBuilt(g, r.value, fbo, rbo, program.id, lut)
  {
    if program.id != 0 {
      var g0 := NewLookupTexture(g, lut);
      var g1 := ResizeCapture(g0, fbo, rbo, BRDF_SIZE);
      assert Resized(g0, fbo, rbo, Square(BRDF_SIZE)) == Resized(g, fbo, rbo, Square(BRDF_SIZE));
      var g3 := Viewport(FramebufferTexture(g1, 0, ColorTarget(lut, Whole, 0)), Square(BRDF_SIZE)).(program := program.id);
      assert StoredDepth(g3, fbo) == Resized(g, fbo, rbo, Square(BRDF_SIZE));
      var h := BindFramebuffer(DrawCall(g3, QuadMesh), 0);
      assert h.draws == g.draws + [Snapshot(g3, QuadMesh)];
      assert CreateBrdfLookupTexture(g, fbo, rbo, program, lut) == Success(h);
    }
  }

  /** The lookup draw lands consistently exactly when the resize left 512x512
      depth for `fbo`, in particular when binding `rbo` leaves its depth
      renderbuffer bound. */
  lemma BrdfConsistent(g: State, h: State, fbo: Name, rbo: Name, program: Name, lut: Name)
    requires BrdfBuilt(g, h, fbo, rbo, program, lut)
    ensures Consistent(h.draws[|g.draws|]) <==> Resized(g, fbo, rbo, Square(BRDF_SIZE)) == Some(Square(BRDF_SIZE))
    ensures ReachesAttachedDepth(g, fbo, rbo) ==> Consistent(h.draws[|g.draws|])
  {
  }
}
