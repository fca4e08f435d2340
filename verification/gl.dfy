/**
  An abstract OpenGL context, as far as the renderer's logic depends on it.

  The context is an immutable record; every GL call the renderer issues is a
  function from record to record. Pixel contents, matrices and shader kernels
  are not modelled: a draw call appends a `Draw` event that snapshots the part
  of the state that decides where and how the draw lands (bound framebuffer,
  colour attachment and its level size, depth storage, viewport, program,
  the `view`/`roughness` uniforms and the texture bound on each unit).
*/
module Gl {
  import opened Wrappers

  /** A GL object name as returned by glGen*; 0 is never generated. */
  type Name = nat

  // GL enumerants used by the modelled code (values from glad/glad.h)
  const UNSIGNED_BYTE: int := 0x1401
  const INT: int := 0x1404
  const UNSIGNED_INT: int := 0x1405
  const FLOAT: int := 0x1406
  const RED: int := 0x1903
  const RGB: int := 0x1907
  const RGBA: int := 0x1908
  const RG16F: int := 0x822F
  const RGBA16F: int := 0x881A
  const RGB16F: int := 0x881B

  datatype Object = Tex(name: Name) | Fbo(name: Name) | Rbo(name: Name)

  datatype Size = Size(width: nat, height: nat)

  function Square(n: nat): Size {
    Size(n, n)
  }

  /** Texture targets: GL_TEXTURE_CUBE_MAP and GL_TEXTURE_2D. */
  datatype Kind = Cube | Flat

  /** Storage of a texture: level-0 size (shared by the six faces of a cube
      map), internal format and number of mip levels allocated. */
  datatype TexImage = TexImage(kind: Kind, size: Size, internalFormat: int, levels: nat)

  /** What a colour attachment names inside its texture: one cube face
      (GL_TEXTURE_CUBE_MAP_POSITIVE_X + index) or the whole 2D image. */
  datatype Surface = Face(index: nat) | Whole

  datatype ColorTarget = ColorTarget(texture: Name, surface: Surface, level: nat)

  datatype Primitive = CubeMesh | QuadMesh | SphereMesh

  datatype Draw = Draw(
    primitive: Primitive,
    framebuffer: Name,
    color: Option<ColorTarget>,   // COLOR_ATTACHMENT0 of the bound framebuffer
    colorSize: Option<Size>,      // size of the attached level, if it exists
    depth: Option<Size>,          // storage of the attached depth renderbuffer
    viewport: Size,
    program: Name,
    view: Option<nat>,            // index into the six capture views
    roughness: Option<real>,
    cubeUnits: map<nat, Name>,
    flatUnits: map<nat, Name>)

  /** Object lifetime calls, plus each call into the image decoder. */
  datatype Event = Created(obj: Object) | Deleted(obj: Object) | Decoded(path: string)

  datatype State = State(
    framebuffer: Name,                      // GL_FRAMEBUFFER binding
    renderbuffer: Name,                     // GL_RENDERBUFFER binding
    storage: map<Name, Size>,               // renderbuffer -> depth storage size
    depthOf: map<Name, Name>,               // framebuffer -> depth renderbuffer
    colorOf: map<(Name, nat), ColorTarget>, // (framebuffer, attachment point) -> colour target
    textures: map<Name, TexImage>,
    viewport: Size,
    activeUnit: nat,
    cubeUnits: map<nat, Name>,              // unit -> texture bound to GL_TEXTURE_CUBE_MAP
    flatUnits: map<nat, Name>,              // unit -> texture bound to GL_TEXTURE_2D
    program: Name,
    view: Option<nat>,
    roughness: Option<real>,
    live: set<Object>,
    events: seq<Event>,
    draws: seq<Draw>)

  /** A fresh context whose default framebuffer has the given size. */
  function Initial(viewport: Size): State {
    State(0, 0, map[], map[], map[], map[], viewport, 0, map[], map[], 0, None, None, {}, [], [])
  }

  function Pow2(n: nat): (r: nat)
    ensures r >= 1
  {
    if n == 0 then 1 else 2 * Pow2(n - 1)
  }

  /** Number of levels of a full mip chain whose largest side is n. */
  function MipLevels(n: nat): (r: nat)
    ensures r >= 1
  {
    if n <= 1 then 1 else 1 + MipLevels(n / 2)
  }

  /** Side of mip level `level` of a side-`n` image: `level` integer halvings. */
  function LevelSide(n: nat, level: nat): nat {
    if level == 0 then n else LevelSide(n / 2, level - 1)
  }

  function LevelSize(img: TexImage, level: nat): Size {
    Size(LevelSide(img.size.width, level), LevelSide(img.size.height, level))
  }

  /** The texture a unit holds; a unit never bound, or bound to 0, holds the
      default texture 0. */
  function UnitTexture(units: map<nat, Name>, unit: nat): Name {
    if unit in units then units[unit] else 0
  }

  function UnbindEverywhere(units: map<nat, Name>, n: Name): map<nat, Name> {
    map u | u in units && units[u] != n :: units[u]
  }

  function Bound(g: State, kind: Kind): Name {
    match kind
    case Cube => UnitTexture(g.cubeUnits, g.activeUnit)
    case Flat => UnitTexture(g.flatUnits, g.activeUnit)
  }

  // ---- object lifetime -------------------------------------------------------

  function Gen(g: State, o: Object): State {
    g.(live := g.live + {o}, events := g.events + [Created(o)])
  }

  /** glDeleteTextures: ignores 0 and unused names; a deleted texture is
      unbound from every unit. */
  function DeleteTexture(g: State, n: Name): (r: State)
    ensures r == g.(events := r.events, live := r.live, textures := r.textures, cubeUnits := r.cubeUnits, flatUnits := r.flatUnits)
    ensures r.events == g.events + [Deleted(Tex(n))]
    ensures n != 0 ==> r.live == g.live - {Tex(n)}
    ensures r.live <= g.live && g.live - r.live <= {Tex(n)}
    ensures n != 0 ==> r.textures == if Tex(n) in g.live then g.textures - {n} else g.textures
  {
    var g1 := g.(events := g.events + [Deleted(Tex(n))]);
    if n == 0 || Tex(n) !in g.live then g1
    else g1.(live := g.live - {Tex(n)},
             textures := g.textures - {n},
             cubeUnits := UnbindEverywhere(g.cubeUnits, n),
             flatUnits := UnbindEverywhere(g.flatUnits, n))
  }

  /** glDeleteFramebuffers: ignores 0 and unused names; deleting the bound
      framebuffer rebinds 0. */
  function DeleteFramebuffer(g: State, n: Name): (r: State)
    ensures r == g.(events := r.events, live := r.live, depthOf := r.depthOf, colorOf := r.colorOf, framebuffer := r.framebuffer)
    ensures r.events == g.events + [Deleted(Fbo(n))]
    ensures n != 0 ==> r.live == g.live - {Fbo(n)}
    ensures r.live <= g.live && g.live - r.live <= {Fbo(n)}
  {
    var g1 := g.(events := g.events + [Deleted(Fbo(n))]);
    if n == 0 || Fbo(n) !in g.live then g1
    else g1.(live := g.live - {Fbo(n)},
             depthOf := g.depthOf - {n},
             colorOf := map k | k in g.colorOf && k.0 != n :: g.colorOf[k],
             framebuffer := if g.framebuffer == n then 0 else g.framebuffer)
  }

  /** glDeleteRenderbuffers: ignores 0 and unused names; deleting the bound
      renderbuffer rebinds 0. */
  function DeleteRenderbuffer(g: State, n: Name): (r: State)
    ensures r == g.(events := r.events, live := r.live, storage := r.storage, renderbuffer := r.renderbuffer)
    ensures r.events == g.events + [Deleted(Rbo(n))]
    ensures n != 0 ==> r.live == g.live - {Rbo(n)}
    ensures r.live <= g.live && g.live - r.live <= {Rbo(n)}
  {
    var g1 := g.(events := g.events + [Deleted(Rbo(n))]);
    if n == 0 || Rbo(n) !in g.live then g1
    else g1.(live := g.live - {Rbo(n)},
             storage := g.storage - {n},
             renderbuffer := if g.renderbuffer == n then 0 else g.renderbuffer)
  }

  function DecodeCall(g: State, path: string): State {
    g.(events := g.events + [Decoded(path)])
  }

  // ---- framebuffer and renderbuffer state ---------------------------------------

  function BindFramebuffer(g: State, n: Name): State {
    g.(framebuffer := n)
  }

  /** The renderbuffer glBindRenderbuffer(n) leaves bound. The renderer asks
      GLFW for a 4.6 core-profile context (src/main.cpp:80-82); there a
      non-zero name that is not a live renderbuffer (never returned by
      glGenRenderbuffers, or deleted since) raises GL_INVALID_OPERATION and
      the binding stays as it was. */
  function RenderbufferBinding(g: State, n: Name): (bound: Name)
    ensures bound == n <==> n == 0 || Rbo(n) in g.live || g.renderbuffer == n
    ensures bound != n ==> bound == g.renderbuffer
  {
    if n == 0 || Rbo(n) in g.live then n else g.renderbuffer
  }

  function BindRenderbuffer(g: State, n: Name): State {
    g.(renderbuffer := RenderbufferBinding(g, n))
  }

  /** glRenderbufferStorage: sizes the renderbuffer currently bound. */
  function RenderbufferStorage(g: State, size: Size): State {
    if g.renderbuffer == 0 then g
    else g.(storage := g.storage[g.renderbuffer := size])
  }

  /** glFramebufferRenderbuffer(GL_DEPTH_ATTACHMENT) on the bound framebuffer;
      renderbuffer 0 detaches. */
  function FramebufferRenderbuffer(g: State, rb: Name): State {
    if g.framebuffer == 0 then g
    else if rb == 0 then g.(depthOf := g.depthOf - {g.framebuffer})
    else g.(depthOf := g.depthOf[g.framebuffer := rb])
  }

  /** glFramebufferTexture2D(GL_COLOR_ATTACHMENT0 + point) on the bound framebuffer. */
  function FramebufferTexture(g: State, point: nat, target: ColorTarget): State {
    if g.framebuffer == 0 then g
    else g.(colorOf := g.colorOf[(g.framebuffer, point) := target])
  }

  function Viewport(g: State, size: Size): State {
    g.(viewport := size)
  }

  // ---- textures ---------------------------------------------------------------

  function ActiveTexture(g: State, unit: nat): State {
    g.(activeUnit := unit)
  }

  function BindTexture(g: State, kind: Kind, n: Name): State {
    match kind
    case Cube => g.(cubeUnits := g.cubeUnits[g.activeUnit := n])
    case Flat => g.(flatUnits := g.flatUnits[g.activeUnit := n])
  }

  /** glTexImage2D at level 0 on the texture bound to `kind` on the active
      unit; for a cube map this stands for the six per-face calls with the same
      size and format. */
  function TexImage2D(g: State, kind: Kind, size: Size, internalFormat: int): State {
    var n := Bound(g, kind);
    if n == 0 then g
    else g.(textures := g.textures[n := TexImage(kind, size, internalFormat, 1)])
  }

  /** glGenerateMipmap: allocates the full chain below level 0. */
  function GenerateMipmap(g: State, kind: Kind): State {
    var n := Bound(g, kind);
    if n == 0 || n !in g.textures then g
    else
      var img := g.textures[n];
      var side := if img.size.width < img.size.height then img.size.height else img.size.width;
      g.(textures := g.textures[n := img.(levels := MipLevels(side))])
  }

  // ---- programs, uniforms, draws ---------------------------------------------------

  function UseProgram(g: State, p: Name): State {
    g.(program := p)
  }

  function SetView(g: State, i: nat): State {
    g.(view := Some(i))
  }

  function SetRoughness(g: State, r: real): State {
    g.(roughness := Some(r))
  }

  function AttachedDepth(g: State, fb: Name): Option<Name> {
    if fb in g.depthOf then Some(g.depthOf[fb]) else None
  }

  /** Size of the depth storage attached to framebuffer `fb`, if any. */
  function StoredDepth(g: State, fb: Name): Option<Size> {
    if fb in g.depthOf && g.depthOf[fb] in g.storage then Some(g.storage[g.depthOf[fb]]) else None
  }

  /** Size of the level a colour target names, if that level exists. */
  function TargetSize(textures: map<Name, TexImage>, c: Option<ColorTarget>): Option<Size> {
    match c
    case None => None
    case Some(t) =>
      if t.texture in textures && t.level < textures[t.texture].levels
      then Some(LevelSize(textures[t.texture], t.level))
      else None
  }

  function Snapshot(g: State, p: Primitive): Draw {
    var key := (g.framebuffer, 0);
    var color := if key in g.colorOf then Some(g.colorOf[key]) else None;
    Draw(p, g.framebuffer, color, TargetSize(g.textures, color), StoredDepth(g, g.framebuffer),
         g.viewport, g.program, g.view, g.roughness, g.cubeUnits, g.flatUnits)
  }

  function DrawCall(g: State, p: Primitive): State {
    g.(draws := g.draws + [Snapshot(g, p)])
  }

  /** The capture invariant: a draw's depth storage, viewport and attached
      colour level all have the same size. */
  predicate Consistent(d: Draw) {
    d.depth == Some(d.viewport) && d.colorSize == Some(d.viewport)
  }
}
