/** The renderer's own life cycle (src/main.cpp): start-up builds the four
    image-based-lighting maps, every frame shades the floor and the sphere,
    rebuilds the maps when the settings window reported a new HDR file, binds
    the maps and draws the skybox, and the end of the program releases the
    capture objects and the maps. GLFW, ImGui, matrices and uniforms other
    than the ones the model tracks are left out; each frame's inputs (the
    names glGen returns, what the image decoder returns, the window size, the
    file the settings window picked) are parameters. */
module Lifecycle {
  import opened Wrappers
  import opened Gl
  import Texture2D
  import Shader
  import opened Ibl

  /** The file the renderer builds its maps from at start-up. */
  const DEFAULT_HDR: string := "res/textures/hdr/satara_night_no_lamps_1k.hdr"

  /** Draws one build issues: six environment faces, six irradiance faces,
      thirty prefilter faces and the lookup quad. */
  const BUILD_DRAWS: nat := FACES + FACES + FACES * PREFILTER_LEVELS + 1

  /** The globals env_cubemap, irradiance_map, prefilter_map and brdf_lut_texture. */
  datatype Maps = Maps(environment: Name, irradiance: Name, prefilter: Name, brdf: Name)

  /** The six shader objects created at start-up. */
  datatype Programs = Programs(pbr: Shader.Program, equirect: Shader.Program, irradiance: Shader.Program,
                               prefilter: Shader.Program, brdf: Shader.Program, skybox: Shader.Program)

  /** The four textures of a PBR material, bound to units 3 to 6. */
  datatype Material = Material(albedo: Texture2D.Texture, normal: Texture2D.Texture,
                               metallic: Texture2D.Texture, roughness: Texture2D.Texture)

  /** The names glGen hands one build: the image texture, the capture
      framebuffer and renderbuffer, and the four maps. */
  datatype Names = Names(hdr: Name, fbo: Name, rbo: Name, environment: Name, irradiance: Name,
                         prefilter: Name, brdf: Name)

  /** The renderer between frames: the GL state, the `on_change` flag, the
      settings path, the four maps and the capture objects. */
  datatype App = App(gl: State, onChange: bool, path: string, maps: Maps, fbo: Name, rbo: Name)

  /** What the three PBR samplers irradiance_map (cube unit 0),
      prefilter_map (cube unit 1) and brdfLUT (2D unit 2) read. */
  datatype Lighting = Lighting(irradiance: Name, prefilter: Name, brdf: Name)

  /** glGen never returns 0, and the image texture is still alive when the
      environment map's name is generated (src/core/Ibl.cpp:19 loads it,
      line 34 generates the cube map), so the two are different names. */
  predicate ValidNames(n: Names) {
    && n.hdr != 0 && n.fbo != 0 && n.rbo != 0
    && n.environment != 0 && n.irradiance != 0 && n.prefilter != 0 && n.brdf != 0
    && n.hdr != n.environment
  }

  function MapsOf(n: Names): Maps {
    Maps(n.environment, n.irradiance, n.prefilter, n.brdf)
  }

  function LightingOf(d: Draw): Lighting {
    Lighting(Sampled(d, Cube, 0), Sampled(d, Cube, 1), Sampled(d, Flat, 2))
  }

  function LightingIn(g: State): Lighting {
    Lighting(UnitTexture(g.cubeUnits, 0), UnitTexture(g.cubeUnits, 1), UnitTexture(g.flatUnits, 2))
  }

  function LightingOfMaps(m: Maps): Lighting {
    Lighting(m.irradiance, m.prefilter, m.brdf)
  }

  /** A build fails when one of its four programs is not compiled or the HDR
      file does not decode. */
  predicate BuildFails(p: Programs, decoded: Option<Texture2D.Image>) {
    p.equirect.id == 0 || decoded.None? || p.irradiance.id == 0 || p.prefilter.id == 0 || p.brdf.id == 0
  }

  // ---- one build of the four maps ------------------------------------------------------------

  /** The four Ibl calls of start-up and of a rebuild, in their order; the
      irradiance and prefilter passes receive the capture framebuffer's
      handle where the depth renderbuffer's is expected, as the renderer
      passes it. */
  function Build(g: State, path: string, n: Names, p: Programs, decoded: Option<Texture2D.Image>)
    : (r: Result<State, Fault>)
    requires |path| < NPOS && ValidNames(n)
    ensures r.Failure? <==> BuildFails(p, decoded)
    ensures r.Failure? ==> (r.error == TextureNotInitialized <==> p.equirect.id != 0 && decoded.None?)
  {
    var g1 :- CubemapFromHdri(g, path, n.hdr, n.fbo, n.rbo, n.environment, p.equirect, decoded);
    Convolve(g1, n, p)
  }

  /** The three passes that read the environment map. */
  function Convolve(g1: State, n: Names, p: Programs): (r: Result<State, Fault>)
    requires ValidNames(n)
    ensures r.Failure? <==> p.irradiance.id == 0 || p.prefilter.id == 0 || p.brdf.id == 0
    ensures r.Failure? ==> r.error == ShaderNotInitialized
  {
    var g2 :- CreateIrradianceMap(g1, n.fbo, n.fbo, p.irradiance, n.environment, n.irradiance);
    var g3 :- CreatePrefilterMap(g2, n.fbo, n.fbo, p.prefilter, n.environment, n.prefilter);
    CreateBrdfLookupTexture(g3, n.fbo, n.rbo, p.brdf, n.brdf)
  }

  /** The object events of one build, in order. */
  function BuildEvents(path: string, n: Names): seq<Event> {
    [Created(Tex(n.hdr)), Decoded(path), Created(Fbo(n.fbo)), Created(Rbo(n.rbo)), Created(Tex(n.environment))]
    + [Deleted(Tex(n.hdr))] + [Created(Tex(n.irradiance))] + [Created(Tex(n.prefilter))] + [Created(Tex(n.brdf))]
  }

  /** Whether the resizes the irradiance and prefilter passes make through
      the framebuffer's handle reach the capture framebuffer's depth
      renderbuffer, `live` being the objects alive when the build starts. The
      handle is either the renderbuffer's own number, or a number no live
      renderbuffer carries, so that the core-profile bind fails and leaves
      the depth renderbuffer `CubemapFromHDRI` bound in charge. Only a
      different renderbuffer alive under the framebuffer's number turns the
      resizes away. */
  predicate AliasReaches(live: set<Object>, n: Names) {
    n.fbo == n.rbo || Rbo(n.fbo) !in live
  }

  /** No renderbuffer is alive: so it is at start-up, before the first build
      (src/core/Ibl.cpp:25 is the program's only glGenRenderbuffers). */
  predicate NoRenderbuffers(live: set<Object>) {
    forall o | o in live :: !o.Rbo?
  }

  /** Every draw of `ds` from index `from` on lands consistently. */
  predicate ConsistentFrom(ds: seq<Draw>, from: nat) {
    forall k | from <= k < |ds| :: Consistent(ds[k])
  }

  /** Depth the irradiance pass renders over: 32x32 when its resize reaches
      the capture framebuffer's depth renderbuffer, the 512x512 of the
      environment pass otherwise. */
  function IrradianceDepth(reaches: bool): Option<Size> {
    if reaches then Some(Square(IRRADIANCE_SIZE)) else Some(Square(CUBEMAP_SIZE))
  }

  /** The draws a successful build appends, as four consecutive runs:
      environment faces sampling the image, irradiance faces and prefilter
      levels sampling the environment map, and the lookup quad; `reaches`
      says whether the irradiance and prefilter resizes reached the depth
      renderbuffer. */
  ghost predicate BuiltDraws(before: seq<Draw>, after: seq<Draw>, n: Names, p: Programs, reaches: bool) {
    var s := |before|;
    && |after| == s + BUILD_DRAWS && after[..s] == before
    && FaceRun(after[s..s + 6], n.environment, 0, Square(CUBEMAP_SIZE), Some(Square(CUBEMAP_SIZE)),
               n.fbo, p.equirect.id, Flat, n.hdr)
    && FaceRun(after[s + 6..s + 12], n.irradiance, 0, Square(IRRADIANCE_SIZE), IrradianceDepth(reaches),
               n.fbo, p.irradiance.id, Cube, n.environment)
    && PrefilterRun(after[s + 12..s + 42], n.prefilter, n.fbo, p.prefilter.id, n.environment,
                    reaches, Some(Square(CUBEMAP_SIZE)))
    && LookupDraw(after[s + 42], n.fbo, p.brdf.id, n.brdf, Some(Square(CUBEMAP_SIZE)))
  }

  /** The state a successful build leaves: its draws, the environment map
      on cube unit 0, the capture framebuffer's depth renderbuffer, the
      objects alive and the object events. */
  ghost predicate Built(g: State, h: State, path: string, n: Names, p: Programs) {
    && h.framebuffer == 0
    && BuiltDraws(g.draws, h.draws, n, p, AliasReaches(g.live, n))
    && UnitTexture(h.cubeUnits, 0) == n.environment
    && AttachedDepth(h, n.fbo) == Some(n.rbo)
    && h.live == g.live + {Tex(n.hdr), Fbo(n.fbo), Rbo(n.rbo), Tex(n.environment)} - {Tex(n.hdr)}
                 + {Tex(n.irradiance)} + {Tex(n.prefilter)} + {Tex(n.brdf)}
    && h.events == g.events + BuildEvents(path, n)
  }

  /** After a build the six objects it made are alive and the environment
      map is on cube unit 0. */
  lemma BuiltKeepsMaps(g: State, h: State, path: string, n: Names, p: Programs)
    requires ValidNames(n) && Built(g, h, path, n, p)
    ensures Handles(MapsOf(n), n.fbo, n.rbo) <= h.live
    ensures forall o: Object | o.Rbo? :: o in h.live <==> o in g.live || o == Rbo(n.rbo)
    ensures UnitTexture(h.cubeUnits, 0) == n.environment
    ensures h.events == g.events + BuildEvents(path, n)
  {
  }

  /** If `a` extends `b`, slices inside `b` are slices of `a`. */
  lemma PrefixSlice<T>(a: seq<T>, b: seq<T>, i: nat, j: nat)
    requires |b| <= |a| && a[..|b|] == b && i <= j <= |b|
    ensures a[i..j] == b[i..j]
  {
    assert forall k | i <= k < j :: a[i..j][k - i] == a[..|b|][k];
  }

  /** The four runs of the passes line up into the draws of a build. */
  lemma BuiltDrawsFromPasses(d0: seq<Draw>, d1: seq<Draw>, d2: seq<Draw>, d3: seq<Draw>, d4: seq<Draw>,
                             n: Names, p: Programs, reaches: bool)
    requires |d1| == |d0| + FACES && d1[..|d0|] == d0
    requires FaceRun(d1[|d0|..], n.environment, 0, Square(CUBEMAP_SIZE), Some(Square(CUBEMAP_SIZE)),
                     n.fbo, p.equirect.id, Flat, n.hdr)
    requires |d2| == |d1| + FACES && d2[..|d1|] == d1
    requires FaceRun(d2[|d1|..], n.irradiance, 0, Square(IRRADIANCE_SIZE), IrradianceDepth(reaches),
                     n.fbo, p.irradiance.id, Cube, n.environment)
    requires |d3| == |d2| + FACES * PREFILTER_LEVELS && d3[..|d2|] == d2
    requires PrefilterRun(d3[|d2|..], n.prefilter, n.fbo, p.prefilter.id, n.environment,
                          reaches, Some(Square(CUBEMAP_SIZE)))
    requires |d4| == |d3| + 1 && d4[..|d3|] == d3
    requires LookupDraw(d4[|d3|], n.fbo, p.brdf.id, n.brdf, Some(Square(CUBEMAP_SIZE)))
    ensures BuiltDraws(d0, d4, n, p, reaches)
  {
    var s := |d0|;
    PrefixSlice(d4, d3, s + 12, s + 42);
    PrefixSlice(d3, d2, s + 6, s + 12);
    PrefixSlice(d4, d3, s + 6, s + 12);
    PrefixSlice(d2, d1, s, s + 6);
    PrefixSlice(d3, d2, s, s + 6);
    PrefixSlice(d4, d3, s, s + 6);
    PrefixSlice(d4, d3, 0, s);
    PrefixSlice(d3, d2, 0, s);
    PrefixSlice(d2, d1, 0, s);
  }

  lemma BuildBuilds(g: State, path: string, n: Names, p: Programs, decoded: Option<Texture2D.Image>)
    requires |path| < NPOS && ValidNames(n)
    ensures var r := Build(g, path, n, p, decoded);
            r.Success? ==> Built(g, r.value, path, n, p)
  {
    if !BuildFails(p, decoded) {
      var g1 := CubemapFromHdri(g, path, n.hdr, n.fbo, n.rbo, n.environment, p.equirect, decoded).value;
      CubemapFromHdriBuilds(g, path, n.hdr, n.fbo, n.rbo, n.environment, p.equirect, decoded);
      ConvolveBuilds(g, g1, path, n, p);
    }
  }

  lemma ConvolveBuilds(g: State, g1: State, path: string, n: Names, p: Programs)
    requires ValidNames(n)
    requires CubemapBuilt(g, g1, path, n.hdr, n.fbo, n.rbo, n.environment, p.equirect.id)
    ensures var r := Convolve(g1, n, p);
            r.Success? ==> Built(g, r.value, path, n, p)
  {
    if p.irradiance.id != 0 && p.prefilter.id != 0 && p.brdf.id != 0 {
      var g2 := CreateIrradianceMap(g1, n.fbo, n.fbo, p.irradiance, n.environment, n.irradiance).value;
      CreateIrradianceMapBuilds(g1, n.fbo, n.fbo, p.irradiance, n.environment, n.irradiance);
      var g3 := CreatePrefilterMap(g2, n.fbo, n.fbo, p.prefilter, n.environment, n.prefilter).value;
      CreatePrefilterMapBuilds(g2, n.fbo, n.fbo, p.prefilter, n.environment, n.prefilter);
      var h := CreateBrdfLookupTexture(g3, n.fbo, n.rbo, p.brdf, n.brdf).value;
      CreateBrdfLookupTextureBuilds(g3, n.fbo, n.rbo, p.brdf, n.brdf);
      BuildTail(g, g1, g2, g3, h, path, n, p);
    }
  }

  /** The four pass predicates compose into `Built`. */
  lemma BuildTail(g: State, g1: State, g2: State, g3: State, h: State, path: string, n: Names, p: Programs)
    requires ValidNames(n)
    requires CubemapBuilt(g, g1, path, n.hdr, n.fbo, n.rbo, n.environment, p.equirect.id)
    requires IrradianceBuilt(g1, g2, n.fbo, n.fbo, p.irradiance.id, n.environment, n.irradiance)
    requires PrefilterBuilt(g2, g3, n.fbo, n.fbo, p.prefilter.id, n.environment, n.prefilter)
    requires BrdfBuilt(g3, h, n.fbo, n.rbo, p.brdf.id, n.brdf)
    ensures Built(g, h, path, n, p)
  {
    var reaches := AliasReaches(g.live, n);
    assert Rbo(n.fbo) in g1.live <==> n.fbo == n.rbo || Rbo(n.fbo) in g.live;
    assert Resized(g1, n.fbo, n.fbo, Square(IRRADIANCE_SIZE)) == IrradianceDepth(reaches);
    assert Rbo(n.fbo) in g2.live <==> Rbo(n.fbo) in g1.live;
    assert ReachesAttachedDepth(g2, n.fbo, n.fbo) == reaches;
    assert !reaches ==> StoredDepth(g2, n.fbo) == Some(Square(CUBEMAP_SIZE));
    PrefilterRunUntouched(g3.draws[|g2.draws|..], n.prefilter, n.fbo, p.prefilter.id, n.environment,
                          reaches, StoredDepth(g2, n.fbo), Some(Square(CUBEMAP_SIZE)));
    assert Rbo(n.rbo) in g3.live;
    assert Resized(g3, n.fbo, n.rbo, Square(BRDF_SIZE)) == Some(Square(CUBEMAP_SIZE));
    BuiltDrawsFromPasses(g.draws, g1.draws, g2.draws, g3.draws, h.draws, n, p, reaches);
    assert h.events == g.events + BuildEvents(path, n);
  }

  /** Every draw of a build lands consistently exactly when the irradiance
      and prefilter resizes reach the capture framebuffer's depth
      renderbuffer; the environment and lookup passes size that renderbuffer
      through its own handle. */
  lemma BuildConsistentIff(before: seq<Draw>, after: seq<Draw>, n: Names, p: Programs, reaches: bool)
    requires BuiltDraws(before, after, n, p, reaches)
    ensures (forall k | |before| <= k < |after| :: Consistent(after[k])) <==> reaches
  {
    var s := |before|;
    var env, irr, pre := after[s..s + 6], after[s + 6..s + 12], after[s + 12..s + 42];
    FaceRunConsistent(env, n.environment, 0, Square(CUBEMAP_SIZE), Some(Square(CUBEMAP_SIZE)), n.fbo, p.equirect.id, Flat, n.hdr);
    FaceRunConsistent(irr, n.irradiance, 0, Square(IRRADIANCE_SIZE), IrradianceDepth(reaches), n.fbo, p.irradiance.id, Cube, n.environment);
    PrefilterConsistentIff(pre, n.prefilter, n.fbo, p.prefilter.id, n.environment, reaches, Some(Square(CUBEMAP_SIZE)));
    if reaches {
      forall k | s <= k < |after| ensures Consistent(after[k]) {
        if k < s + 6 {
          assert after[k] == env[k - s];
        } else if k < s + 12 {
          assert after[k] == irr[k - s - 6];
        } else if k < s + 42 {
          assert after[k] == pre[k - s - 12];
        }
      }
    } else {
      assert irr[0] == after[s + 6];
    }
  }

  // ---- releasing the maps and the capture objects ---------------------------------------

  /** The six objects the renderer owns across frames. */
  function Handles(m: Maps, fbo: Name, rbo: Name): set<Object> {
    {Tex(m.environment), Tex(m.irradiance), Tex(m.prefilter), Tex(m.brdf), Rbo(rbo), Fbo(fbo)}
  }

  predicate NonzeroHandles(m: Maps, fbo: Name, rbo: Name) {
    m.environment != 0 && m.irradiance != 0 && m.prefilter != 0 && m.brdf != 0 && rbo != 0 && fbo != 0
  }

  predicate DistinctMaps(m: Maps) {
    && m.environment != m.irradiance && m.environment != m.prefilter && m.environment != m.brdf
    && m.irradiance != m.prefilter && m.irradiance != m.brdf && m.prefilter != m.brdf
  }

  function MapDeletions(m: Maps): seq<Event> {
    [Deleted(Tex(m.environment)), Deleted(Tex(m.irradiance)), Deleted(Tex(m.prefilter)), Deleted(Tex(m.brdf))]
  }

  function ReleaseEvents(m: Maps, fbo: Name, rbo: Name): seq<Event> {
    MapDeletions(m) + [Deleted(Rbo(rbo))] + [Deleted(Fbo(fbo))]
  }

  function TeardownEvents(m: Maps, fbo: Name, rbo: Name): seq<Event> {
    [Deleted(Rbo(rbo))] + [Deleted(Fbo(fbo))] + MapDeletions(m)
  }

  /** glDeleteTextures on the four maps, in the order the renderer lists them. */
  function DeleteMaps(g: State, m: Maps): (r: State)
    ensures r.events == g.events + MapDeletions(m)
    ensures m.environment != 0 && m.irradiance != 0 && m.prefilter != 0 && m.brdf != 0 ==>
            r.live == g.live - {Tex(m.environment)} - {Tex(m.irradiance)} - {Tex(m.prefilter)} - {Tex(m.brdf)}
    ensures r.live <= g.live && forall o | o in g.live && !o.Tex? :: o in r.live
    ensures r.draws == g.draws && r.viewport == g.viewport && r.program == g.program
  {
    DeleteTexture(DeleteTexture(DeleteTexture(DeleteTexture(g, m.environment), m.irradiance), m.prefilter), m.brdf)
  }

  /** The deletions that open a rebuild: the four maps, then the
      renderbuffer, then the framebuffer. */
  function Release(g: State, m: Maps, fbo: Name, rbo: Name): (r: State)
    ensures r.events == g.events + ReleaseEvents(m, fbo, rbo)
    ensures NonzeroHandles(m, fbo, rbo) ==> r.live == g.live - Handles(m, fbo, rbo)
    ensures rbo != 0 ==> Rbo(rbo) !in r.live
    ensures forall o: Object | o.Rbo? && o != Rbo(rbo) :: o in r.live <==> o in g.live
    ensures r.draws == g.draws && r.viewport == g.viewport && r.program == g.program
  {
    DeleteFramebuffer(DeleteRenderbuffer(DeleteMaps(g, m), rbo), fbo)
  }

  /** The deletions after the loop: the renderbuffer, the framebuffer, then
      the four maps. */
  function Teardown(a: App): (r: State)
    ensures r.events == a.gl.events + TeardownEvents(a.maps, a.fbo, a.rbo)
    ensures NonzeroHandles(a.maps, a.fbo, a.rbo) ==> r.live == a.gl.live - Handles(a.maps, a.fbo, a.rbo)
    ensures r.draws == a.gl.draws
  {
    DeleteMaps(DeleteFramebuffer(DeleteRenderbuffer(a.gl, a.rbo), a.fbo), a.maps)
  }

  /** Both release sequences delete six different objects, each once, and
      the same six. */
  lemma ReleaseDeletesEachOnce(m: Maps, fbo: Name, rbo: Name)
    requires DistinctMaps(m)
    ensures var es := ReleaseEvents(m, fbo, rbo);
            forall i, j | 0 <= i < j < |es| :: es[i] != es[j]
    ensures forall e | e in ReleaseEvents(m, fbo, rbo) :: e.Deleted? && e.obj in Handles(m, fbo, rbo)
    ensures multiset(TeardownEvents(m, fbo, rbo)) == multiset(ReleaseEvents(m, fbo, rbo))
  {
    var es := ReleaseEvents(m, fbo, rbo);
    assert es == [Deleted(Tex(m.environment)), Deleted(Tex(m.irradiance)), Deleted(Tex(m.prefilter)),
                  Deleted(Tex(m.brdf)), Deleted(Rbo(rbo)), Deleted(Fbo(fbo))];
    assert ReleaseEvents(m, fbo, rbo) == MapDeletions(m) + ([Deleted(Rbo(rbo))] + [Deleted(Fbo(fbo))]);
  }

  /** The build as start-up and the rebuild run it: what it leaves behind,
      from the pass-by-pass account above. */
  method RunBuild(g: State, path: string, n: Names, p: Programs, decoded: Option<Texture2D.Image>)
    returns (r: Result<State, Fault>)
    requires |path| < NPOS && ValidNames(n)
    ensures r.Failure? <==> BuildFails(p, decoded)
    ensures r.Success? ==> |r.value.draws| == |g.draws| + BUILD_DRAWS && r.value.draws[..|g.draws|] == g.draws
    ensures r.Success? ==> BuiltDraws(g.draws, r.value.draws, n, p, AliasReaches(g.live, n))
    ensures r.Success? ==> (ConsistentFrom(r.value.draws, |g.draws|) <==> AliasReaches(g.live, n))
    ensures r.Success? ==> r.value.events == g.events + BuildEvents(path, n)
    ensures r.Success? ==> Handles(MapsOf(n), n.fbo, n.rbo) <= r.value.live
    ensures r.Success? ==> forall o: Object | o.Rbo? :: o in r.value.live <==> o in g.live || o == Rbo(n.rbo)
    ensures r.Success? ==> UnitTexture(r.value.cubeUnits, 0) == n.environment
  {
    BuildBuilds(g, path, n, p, decoded);
    r := Build(g, path, n, p, decoded);
    if r.Success? {
      BuiltKeepsMaps(g, r.value, path, n, p);
      BuildConsistentIff(g.draws, r.value.draws, n, p, AliasReaches(g.live, n));
    }
  }

  // ---- the frame's stages --------------------------------------------------------------------

  /** Every texture of the material has been loaded. */
  predicate Ready(m: Material) {
    m.albedo.initialized && m.normal.initialized && m.metallic.initialized && m.roughness.initialized
  }

  function MaterialIds(m: Material): seq<Name> {
    [m.albedo.id, m.normal.id, m.metallic.id, m.roughness.id]
  }

  /** What the albedoMap, normalMap, metallicMap and roughnessMap samplers
      (2D units 3 to 6) read. */
  function MaterialIn(flatUnits: map<nat, Name>): seq<Name> {
    [UnitTexture(flatUnits, 3), UnitTexture(flatUnits, 4), UnitTexture(flatUnits, 5), UnitTexture(flatUnits, 6)]
  }

  /** The four `Bind(3)` to `Bind(6)` calls of one material. */
  function BindMaterial(g: State, m: Material): (r: Result<State, Fault>)
    ensures r.Failure? <==> !Ready(m)
    ensures r.Success? ==> r.value == g.(activeUnit := 6, flatUnits := r.value.flatUnits)
    ensures r.Success? ==> MaterialIn(r.value.flatUnits) == MaterialIds(m)
    ensures r.Success? ==> forall u | u < 3 :: UnitTexture(r.value.flatUnits, u) == UnitTexture(g.flatUnits, u)
  {
    var g1 :- Texture2D.Bind(g, m.albedo, 3);
    var g2 :- Texture2D.Bind(g1, m.normal, 4);
    var g3 :- Texture2D.Bind(g2, m.metallic, 5);
    Texture2D.Bind(g3, m.roughness, 6)
  }

  /** A PBR draw of `primitive` with `program`, the material's textures on
      units 3 to 6 and the given textures behind the three lighting samplers. */
  predicate Shaded(d: Draw, primitive: Primitive, program: Name, m: Material, lighting: Lighting) {
    && d.primitive == primitive && d.program == program
    && MaterialIn(d.flatUnits) == MaterialIds(m)
    && LightingOf(d) == lighting
  }

  /** The PBR program, the floor's material and the floor (a scaled cube),
      then the sphere's material and the sphere. */
  method ShadeScene(g: State, pbr: Shader.Program, floor: Material, sphere: Material) returns (r: Result<State, Fault>)
    ensures r.Failure? <==> pbr.id == 0 || !Ready(floor) || !Ready(sphere)
    ensures r.Success? ==> r.value == g.(program := pbr.id, activeUnit := 6, flatUnits := r.value.flatUnits, draws := r.value.draws)
    ensures r.Success? ==> LightingIn(r.value) == LightingIn(g)
    ensures r.Success? ==> |r.value.draws| == |g.draws| + 2 && r.value.draws[..|g.draws|] == g.draws
    ensures r.Success? ==> Shaded(r.value.draws[|g.draws|], CubeMesh, pbr.id, floor, LightingIn(g))
    ensures r.Success? ==> Shaded(r.value.draws[|g.draws| + 1], SphereMesh, pbr.id, sphere, LightingIn(g))
  {
    var g1 :- Shader.Bind(g, pbr);
    var g2 :- BindMaterial(g1, floor);
    var g3 :- BindMaterial(DrawCall(g2, CubeMesh), sphere);
    r := Success(DrawCall(g3, SphereMesh));
  }

  /** The IBL binds: irradiance on cube unit 0, prefilter on cube unit 1,
      the lookup texture on 2D unit 2. */
  function BindIbl(g: State, m: Maps): (r: State)
    ensures r == g.(activeUnit := 2, cubeUnits := r.cubeUnits, flatUnits := r.flatUnits)
    ensures LightingIn(r) == LightingOfMaps(m)
    ensures MaterialIn(r.flatUnits) == MaterialIn(g.flatUnits)
  {
    var g1 := BindTexture(ActiveTexture(g, 0), Cube, m.irradiance);
    var g2 := BindTexture(ActiveTexture(g1, 1), Cube, m.prefilter);
    BindTexture(ActiveTexture(g2, 2), Flat, m.brdf)
  }

  /** The skybox: its program, the environment map on cube unit 0, the cube. */
  method Skybox(g: State, skybox: Shader.Program, env: Name) returns (r: Result<State, Fault>)
    ensures r.Failure? <==> skybox.id == 0
    ensures r.Success? ==> r.value == g.(program := skybox.id, activeUnit := 0, cubeUnits := r.value.cubeUnits, draws := r.value.draws)
    ensures r.Success? ==> LightingIn(r.value) == LightingIn(g).(irradiance := env)
    ensures r.Success? ==> |r.value.draws| == |g.draws| + 1 && r.value.draws[..|g.draws|] == g.draws
    ensures r.Success? ==> var d := r.value.draws[|g.draws|];
                           d.primitive == CubeMesh && d.program == skybox.id && LightingOf(d) == LightingIn(r.value)
  {
    var g1 :- Shader.Bind(g, skybox);
    r := Success(DrawCall(BindTexture(ActiveTexture(g1, 0), Cube, env), CubeMesh));
  }

  /** The settings window: a file picked in the dialog becomes the settings
      path and raises `on_change`; otherwise nothing changes. */
  function Select(a: App, selection: Option<string>): (r: App)
    ensures r.gl == a.gl && r.maps == a.maps && r.fbo == a.fbo && r.rbo == a.rbo
    ensures r.onChange <==> a.onChange || selection.Some?
    ensures r.path == if selection.Some? then selection.value else a.path
  {
    match selection
    case None => a
    case Some(path) => a.(path := path, onChange := true)
  }

  // ---- start-up, rebuild, frame ---------------------------------------------------------------

  /** The sampler-uniform set-up: the PBR, equirectangular and skybox
      programs are bound in turn, the skybox program last. */
  function SetUniforms(g: State, p: Programs): (r: Result<State, Fault>)
    ensures r.Failure? <==> p.pbr.id == 0 || p.equirect.id == 0 || p.skybox.id == 0
    ensures r.Success? ==> r.value == g.(program := p.skybox.id)
  {
    var g1 :- Shader.Bind(g, p.pbr);
    var g2 :- Shader.Bind(g1, p.equirect);
    Shader.Bind(g2, p.skybox)
  }

  /** Between frames the capture renderbuffer is the only renderbuffer alive:
      start-up makes the first, and a rebuild deletes it before making the
      next. */
  predicate OwnsRenderbuffers(a: App) {
    a.rbo != 0 && forall o | o in a.gl.live && o.Rbo? :: o == Rbo(a.rbo)
  }

  /** Whether the environment map is what cube unit 0 holds between frames. */
  predicate EnvironmentBound(a: App) {
    UnitTexture(a.gl.cubeUnits, 0) == a.maps.environment
  }

  /** Start-up from the uniform set-up to the first frame: the programs'
      sampler uniforms, the build from the default file, the second binds of
      the PBR and skybox programs for their projection (which cannot throw,
      both having been bound before), and the viewport set to the framebuffer
      size. The settings path starts empty and nothing is pending; the
      environment map is left on cube unit 0. */
  method Startup(g: State, p: Programs, n: Names, decoded: Option<Texture2D.Image>, framebufferSize: Size)
    returns (r: Result<App, Fault>)
    requires ValidNames(n)
    ensures r.Failure? <==> p.pbr.id == 0 || p.skybox.id == 0 || BuildFails(p, decoded)
    ensures r.Success? ==> r.value.maps == MapsOf(n) && r.value.fbo == n.fbo && r.value.rbo == n.rbo
    ensures r.Success? ==> !r.value.onChange && r.value.path == "" && r.value.gl.viewport == framebufferSize
    ensures r.Success? ==> r.value.gl.events == g.events + BuildEvents(DEFAULT_HDR, n)
    ensures r.Success? ==> BuiltDraws(g.draws, r.value.gl.draws, n, p, AliasReaches(g.live, n))
    ensures r.Success? ==> Handles(r.value.maps, r.value.fbo, r.value.rbo) <= r.value.gl.live
    ensures r.Success? ==> EnvironmentBound(r.value)
    ensures r.Success? && NoRenderbuffers(g.live) ==> OwnsRenderbuffers(r.value)
    ensures r.Success? && NoRenderbuffers(g.live) ==> ConsistentFrom(r.value.gl.draws, |g.draws|)
  {
    var g3 :- SetUniforms(g, p);
    var g4 :- RunBuild(g3, DEFAULT_HDR, n, p, decoded);
    var g6 := UseProgram(UseProgram(g4, p.pbr.id), p.skybox.id);
    r := Success(App(Viewport(g6, framebufferSize), false, "", MapsOf(n), n.fbo, n.rbo));
  }

  /** The `on_change` branch: the old maps and capture objects are deleted
      before anything new is created, the maps are rebuilt from the settings
      path (decoding it once), the viewport is set to the window size and the
      flag is cleared; the new environment map is left on cube unit 0. */
  method Rebuild(a: App, p: Programs, n: Names, decoded: Option<Texture2D.Image>, windowSize: Size)
    returns (r: Result<App, Fault>)
    requires |a.path| < NPOS && ValidNames(n)
    ensures r.Failure? <==> BuildFails(p, decoded)
    ensures r.Success? ==> r.value.maps == MapsOf(n) && r.value.fbo == n.fbo && r.value.rbo == n.rbo
    ensures r.Success? ==> !r.value.onChange && r.value.path == a.path && r.value.gl.viewport == windowSize
    ensures r.Success? ==> r.value.gl.events == a.gl.events + ReleaseEvents(a.maps, a.fbo, a.rbo) + BuildEvents(a.path, n)
    ensures r.Success? ==> |r.value.gl.draws| == |a.gl.draws| + BUILD_DRAWS && r.value.gl.draws[..|a.gl.draws|] == a.gl.draws
    ensures r.Success? ==> BuiltDraws(a.gl.draws, r.value.gl.draws, n, p, AliasReaches(a.gl.live - {Rbo(a.rbo)}, n))
    ensures r.Success? ==> Handles(r.value.maps, r.value.fbo, r.value.rbo) <= r.value.gl.live
    ensures r.Success? ==> EnvironmentBound(r.value)
    ensures r.Success? && OwnsRenderbuffers(a) ==> OwnsRenderbuffers(r.value)
    ensures r.Success? && OwnsRenderbuffers(a) ==> ConsistentFrom(r.value.gl.draws, |a.gl.draws|)
  {
    var g0 := Release(a.gl, a.maps, a.fbo, a.rbo);
    assert Rbo(n.fbo) in g0.live <==> Rbo(n.fbo) in a.gl.live - {Rbo(a.rbo)};
    var g :- RunBuild(g0, a.path, n, p, decoded);
    r := Success(App(Viewport(g, windowSize), false, a.path, MapsOf(n), n.fbo, n.rbo));
  }

  /** The `on_change` branch as a step of the loop: a rebuild when the flag
      is up, nothing otherwise. */
  method Pending(a: App, p: Programs, n: Names, decoded: Option<Texture2D.Image>, windowSize: Size)
    returns (r: Result<App, Fault>)
    requires |a.path| < NPOS && ValidNames(n)
    ensures r.Failure? <==> a.onChange && BuildFails(p, decoded)
    ensures r.Success? && !a.onChange ==> r.value == a
    ensures r.Success? ==> !r.value.onChange && r.value.path == a.path
    ensures r.Success? && a.onChange ==> r.value.maps == MapsOf(n) && r.value.gl.viewport == windowSize
    ensures r.Success? && a.onChange ==> r.value.fbo == n.fbo && r.value.rbo == n.rbo
    ensures r.Success? && a.onChange ==>
              r.value.gl.events == a.gl.events + ReleaseEvents(a.maps, a.fbo, a.rbo) + BuildEvents(a.path, n)
    ensures r.Success? && a.onChange ==>
              |r.value.gl.draws| == |a.gl.draws| + BUILD_DRAWS && r.value.gl.draws[..|a.gl.draws|] == a.gl.draws
    ensures r.Success? && a.onChange ==> EnvironmentBound(r.value)
    ensures r.Success? && OwnsRenderbuffers(a) ==> OwnsRenderbuffers(r.value)
    ensures r.Success? && OwnsRenderbuffers(a) ==> ConsistentFrom(r.value.gl.draws, |a.gl.draws|)
  {
    if a.onChange {
      r := Rebuild(a, p, n, decoded, windowSize);
    } else {
      r := Success(a);
    }
  }

  /** From the IBL binds to the settings window: the maps are bound, the
      skybox is drawn over the environment map, and the dialog may pick a
      new file. One draw is appended; it samples the environment map on cube
      unit 0 and the prefilter map and lookup texture on the other two
      lighting units, and the environment map stays on cube unit 0. */
  method Present(a: App, skybox: Shader.Program, selection: Option<string>) returns (r: Result<App, Fault>)
    ensures r.Failure? <==> skybox.id == 0
    ensures r.Success? ==> r.value.maps == a.maps && r.value.fbo == a.fbo && r.value.rbo == a.rbo
    ensures r.Success? ==> r.value.gl.events == a.gl.events && r.value.gl.viewport == a.gl.viewport
    ensures r.Success? ==> r.value.gl.live == a.gl.live
    ensures r.Success? ==> |r.value.gl.draws| == |a.gl.draws| + 1 && r.value.gl.draws[..|a.gl.draws|] == a.gl.draws
    ensures r.Success? ==> var d := r.value.gl.draws[|a.gl.draws|];
                           d.primitive == CubeMesh && d.program == skybox.id
                           && LightingOf(d) == Lighting(a.maps.environment, a.maps.prefilter, a.maps.brdf)
    ensures r.Success? ==> EnvironmentBound(r.value)
    ensures r.Success? ==> (r.value.onChange <==> a.onChange || selection.Some?)
    ensures r.Success? ==> r.value.path == if selection.Some? then selection.value else a.path
  {
    var g :- Skybox(BindIbl(a.gl, a.maps), skybox, a.maps.environment);
    r := Success(Select(a.(gl := g), selection));
  }

  /** A frame fails when a program is missing, a material texture was not
      loaded, or a pending rebuild fails. */
  predicate FrameFails(onChange: bool, p: Programs, floor: Material, sphere: Material, decoded: Option<Texture2D.Image>) {
    p.pbr.id == 0 || !Ready(floor) || !Ready(sphere) || (onChange && BuildFails(p, decoded)) || p.skybox.id == 0
  }

  /** One iteration of the render loop as the renderer orders it: the floor
      and the sphere are shaded first, then the maps are rebuilt if the last
      frame raised `on_change`, the maps are bound, the skybox is drawn and
      the settings window may pick a new file.

      The two PBR draws read, through the irradiance, prefilter and lookup
      samplers, whatever the units held when the frame began — the IBL binds
      come after them. Between frames cube unit 0 holds the environment map
      (the skybox bind), so the irradiance sampler reads the environment map. */
  method Frame(a: App, p: Programs, floor: Material, sphere: Material, n: Names, decoded: Option<Texture2D.Image>,
               windowSize: Size, selection: Option<string>) returns (r: Result<App, Fault>)
    requires |a.path| < NPOS && ValidNames(n)
    ensures r.Failure? <==> FrameFails(a.onChange, p, floor, sphere, decoded)
    ensures r.Success? ==> |r.value.gl.draws| == |a.gl.draws| + 2 + (if a.onChange then BUILD_DRAWS else 0) + 1
    ensures r.Success? ==> Shaded(r.value.gl.draws[|a.gl.draws|], CubeMesh, p.pbr.id, floor, LightingIn(a.gl))
    ensures r.Success? ==> Shaded(r.value.gl.draws[|a.gl.draws| + 1], SphereMesh, p.pbr.id, sphere, LightingIn(a.gl))
    ensures r.Success? && EnvironmentBound(a) ==>
              LightingOf(r.value.gl.draws[|a.gl.draws| + 1]).irradiance == a.maps.environment
    ensures r.Success? ==> r.value.maps == (if a.onChange then MapsOf(n) else a.maps)
    ensures r.Success? ==> r.value.fbo == (if a.onChange then n.fbo else a.fbo)
    ensures r.Success? ==> r.value.rbo == (if a.onChange then n.rbo else a.rbo)
    ensures r.Success? ==> r.value.gl.events == a.gl.events + (if a.onChange then ReleaseEvents(a.maps, a.fbo, a.rbo) + BuildEvents(a.path, n) else [])
    ensures r.Success? ==> r.value.gl.viewport == (if a.onChange then windowSize else a.gl.viewport)
    ensures r.Success? ==> LightingOf(r.value.gl.draws[|r.value.gl.draws| - 1])
                           == Lighting(r.value.maps.environment, r.value.maps.prefilter, r.value.maps.brdf)
    ensures r.Success? ==> EnvironmentBound(r.value)
    ensures r.Success? ==> r.value.onChange == selection.Some?
    ensures r.Success? ==> r.value.path == if selection.Some? then selection.value else a.path
    ensures r.Success? && OwnsRenderbuffers(a) ==> OwnsRenderbuffers(r.value)
    ensures r.Success? && OwnsRenderbuffers(a) && a.onChange ==>
              forall k | |a.gl.draws| + 2 <= k < |a.gl.draws| + 2 + BUILD_DRAWS :: Consistent(r.value.gl.draws[k])
  {
    var g1 :- ShadeScene(a.gl, p.pbr, floor, sphere);
    var a1 :- Pending(a.(gl := g1), p, n, decoded, windowSize);
    r := Present(a1, p.skybox, selection);
    if r.Success? && OwnsRenderbuffers(a) && a.onChange {
      forall k | |a.gl.draws| + 2 <= k < |a.gl.draws| + 2 + BUILD_DRAWS ensures Consistent(r.value.gl.draws[k]) {
        assert r.value.gl.draws[k] == a1.gl.draws[k];
      }
    }
  }

  /** The IBL binds followed by the floor and the sphere: both PBR draws
      read the given maps through their lighting samplers. */
  method ShadeLit(g: State, m: Maps, pbr: Shader.Program, floor: Material, sphere: Material)
    returns (r: Result<State, Fault>)
    ensures r.Failure? <==> pbr.id == 0 || !Ready(floor) || !Ready(sphere)
    ensures r.Success? ==> r.value.events == g.events && r.value.viewport == g.viewport
    ensures r.Success? ==> |r.value.draws| == |g.draws| + 2 && r.value.draws[..|g.draws|] == g.draws
    ensures r.Success? ==> Shaded(r.value.draws[|g.draws|], CubeMesh, pbr.id, floor, LightingOfMaps(m))
    ensures r.Success? ==> Shaded(r.value.draws[|g.draws| + 1], SphereMesh, pbr.id, sphere, LightingOfMaps(m))
    ensures r.Success? ==> LightingIn(r.value) == LightingOfMaps(m)
  {
    r := ShadeScene(BindIbl(g, m), pbr, floor, sphere);
  }

  /** The loop body with the floor and the sphere drawn after the IBL binds,
      where the source leaves the note that sphere rendering used to be: the
      PBR draws then read the irradiance map, the prefilter map and the lookup
      texture the frame ends with. */
  method FrameCorrected(a: App, p: Programs, floor: Material, sphere: Material, n: Names,
                        decoded: Option<Texture2D.Image>, windowSize: Size, selection: Option<string>)
    returns (r: Result<App, Fault>)
    requires |a.path| < NPOS && ValidNames(n)
    ensures r.Failure? <==> FrameFails(a.onChange, p, floor, sphere, decoded)
    ensures r.Success? ==> |r.value.gl.draws| >= 3
    ensures r.Success? ==> Shaded(r.value.gl.draws[|r.value.gl.draws| - 3], CubeMesh, p.pbr.id, floor, LightingOfMaps(r.value.maps))
    ensures r.Success? ==> Shaded(r.value.gl.draws[|r.value.gl.draws| - 2], SphereMesh, p.pbr.id, sphere, LightingOfMaps(r.value.maps))
    ensures r.Success? ==> r.value.maps == (if a.onChange then MapsOf(n) else a.maps)
    ensures r.Success? ==> r.value.gl.events == a.gl.events + (if a.onChange then ReleaseEvents(a.maps, a.fbo, a.rbo) + BuildEvents(a.path, n) else [])
    ensures r.Success? ==> EnvironmentBound(r.value)
    ensures r.Success? ==> r.value.onChange == selection.Some?
  {
    var a1 :- Pending(a, p, n, decoded, windowSize);
    var g1 :- ShadeLit(a1.gl, a1.maps, p.pbr, floor, sphere);
    var g2 :- Skybox(g1, p.skybox, a1.maps.environment);
    r := Success(Select(a1.(gl := g2), selection));
  }

  /** Start-up followed by the first frame: the sphere's irradiance sampler
      reads the environment map the build left on cube unit 0, not the
      irradiance map built from it. */
  method FirstFrame(g: State, p: Programs, floor: Material, sphere: Material, n: Names,
                    decoded: Option<Texture2D.Image>, framebufferSize: Size, selection: Option<string>)
    returns (r: Result<App, Fault>)
    requires ValidNames(n)
    ensures r.Success? ==> |r.value.gl.draws| == |g.draws| + BUILD_DRAWS + 3
    ensures r.Success? ==> var sphereDraw := r.value.gl.draws[|g.draws| + BUILD_DRAWS + 1];
                           && sphereDraw.primitive == SphereMesh
                           && Sampled(sphereDraw, Cube, 0) == n.environment
                           && (n.irradiance != n.environment ==> Sampled(sphereDraw, Cube, 0) != n.irradiance)
  {
    var a :- Startup(g, p, n, decoded, framebufferSize);
    r := Frame(a, p, floor, sphere, n, decoded, framebufferSize, selection);
  }

  /** Two loop iterations from a state with nothing pending: a file picked
      in the first iteration's settings window is not acted on in that
      iteration; the second iteration deletes the old maps and rebuilds from
      the picked path. Without a pick the second iteration creates and
      deletes nothing. */
  method TwoFrames(a: App, p: Programs, floor: Material, sphere: Material, n: Names,
                   decoded: Option<Texture2D.Image>, windowSize: Size, picked: Option<string>)
    returns (r: Result<App, Fault>)
    requires |a.path| < NPOS && ValidNames(n) && !a.onChange
    requires picked.Some? ==> |picked.value| < NPOS
    ensures r.Success? ==>
              r.value.gl.events == a.gl.events
                                   + (if picked.Some? then ReleaseEvents(a.maps, a.fbo, a.rbo) + BuildEvents(picked.value, n) else [])
    ensures r.Success? ==> r.value.maps == if picked.Some? then MapsOf(n) else a.maps
    ensures r.Success? ==> !r.value.onChange
  {
    var first :- Frame(a, p, floor, sphere, n, decoded, windowSize, picked);
    r := Frame(first, p, floor, sphere, n, decoded, windowSize, None);
    if r.Success? {
      assert first.gl.events == a.gl.events + [];
    }
  }
}
