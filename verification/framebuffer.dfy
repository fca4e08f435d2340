/**
  The framebuffer wrapper: an attachment counter, the list of colour
  attachments it has recorded, the depth handle, and the delete set of its
  destructor. Names the driver generates are inputs.
*/
module Framebuffer {
  import opened Wrappers
  import opened Gl
  import Texture2D

  datatype Framebuffer = Framebuffer(id: Name, index: nat, colorAttachments: seq<Name>, depthAttachment: Name)

  datatype Built = Built(fb: Framebuffer, gl: State)

  /** The constructor: a generated name, bound at once. */
  function Create(g: State, generated: Name): (r: Built)
    requires generated != 0
    ensures r.fb.index == 0 && r.fb.colorAttachments == [] && r.fb.depthAttachment == 0
    ensures r.fb.id == generated && r.gl.framebuffer == generated
    ensures Fbo(generated) in r.gl.live
  {
    Built(Framebuffer(generated, 0, [], 0), BindFramebuffer(Gen(g, Fbo(generated)), generated))
  }

  /** `AttachDepthBuffer(width, height)`: a new renderbuffer, sized and
      attached as the depth attachment of the bound framebuffer. The handle
      it replaces is neither detached from GL's bookkeeping nor deleted. */
  function AttachDepthBuffer(fb: Framebuffer, g: State, generated: Name, width: nat, height: nat): (r: Built)
    requires generated != 0
    ensures r.fb == fb.(depthAttachment := generated)
    ensures r.gl.storage == g.storage[generated := Size(width, height)]
    ensures g.framebuffer != 0 ==> AttachedDepth(r.gl, g.framebuffer) == Some(generated)
    ensures g.framebuffer != 0 ==> StoredDepth(r.gl, g.framebuffer) == Some(Size(width, height))
    ensures r.gl.live == g.live + {Rbo(generated)}
    ensures r.gl.events == g.events + [Created(Rbo(generated))]
  {
    var g1 := BindRenderbuffer(Gen(g, Rbo(generated)), generated);
    var g2 := RenderbufferStorage(g1, Size(width, height));
    Built(fb.(depthAttachment := generated), FramebufferRenderbuffer(g2, generated))
  }

  /** The colour attachment both overloads make: at point `index_` of the
      bound framebuffer, then recorded last and counted; every other
      attachment point keeps its target. */
  function Record(fb: Framebuffer, g: State, texture: Name): (r: Built)
    ensures r.fb == fb.(index := fb.index + 1, colorAttachments := fb.colorAttachments + [texture])
    ensures r.gl == g.(colorOf := r.gl.colorOf)
    ensures g.framebuffer != 0 ==>
              (g.framebuffer, fb.index) in r.gl.colorOf && r.gl.colorOf[(g.framebuffer, fb.index)] == ColorTarget(texture, Whole, 0)
    ensures forall key | key in g.colorOf && key != (g.framebuffer, fb.index) :: key in r.gl.colorOf && r.gl.colorOf[key] == g.colorOf[key]
  {
    Built(fb.(index := fb.index + 1, colorAttachments := fb.colorAttachments + [texture]),
          FramebufferTexture(g, fb.index, ColorTarget(texture, Whole, 0)))
  }

  /** `AttachColorBuffer(id, internal_format, format, width, height, index)`:
      `id` is passed by value and overwritten by glGenTextures, so the
      caller's value is lost; the `index` argument is never read. */
  function AttachColorBuffer(fb: Framebuffer, g: State, generated: Name, id: Name,
                             internalFormat: int, format: int, width: nat, height: nat, index: int): (r: Built)
    requires generated != 0
    ensures r.fb == fb.(index := fb.index + 1, colorAttachments := fb.colorAttachments + [generated])
    ensures g.framebuffer != 0 ==> r.gl.colorOf == g.colorOf[(g.framebuffer, fb.index) := ColorTarget(generated, Whole, 0)]
    ensures r.gl.textures == g.textures[generated := TexImage(Flat, Size(width, height), internalFormat, 1)]
    ensures UnitTexture(r.gl.flatUnits, r.gl.activeUnit) == 0
    ensures r.gl.live == g.live + {Tex(generated)}
    ensures r.gl.framebuffer == g.framebuffer
  {
    var g1 := BindTexture(Gen(g, Tex(generated)), Flat, generated);
    var g2 := TexImage2D(g1, Flat, Size(width, height), internalFormat);
    Record(fb, BindTexture(g2, Flat, 0), generated)
  }

  /** `AttachColorBuffer(texture)`: binds the texture on unit 0 first, so an
      uninitialised texture stops at `Texture2D::Bind`'s assertion. */
  function AttachColorTexture(fb: Framebuffer, g: State, texture: Texture2D.Texture): (r: Result<Built, Fault>)
    ensures r.Failure? <==> !texture.initialized
    ensures r.Failure? ==> r.error == TextureNotInitialized
    ensures r.Success? ==> r.value.fb == fb.(index := fb.index + 1, colorAttachments := fb.colorAttachments + [texture.id])
    ensures r.Success? && g.framebuffer != 0 ==>
      r.value.gl.colorOf == g.colorOf[(g.framebuffer, fb.index) := ColorTarget(texture.id, Whole, 0)]
    ensures r.Success? ==> r.value.gl.activeUnit == 0 && r.value.gl.textures == g.textures
  {
    var g1 :- Texture2D.Bind(g, texture, 0);
    Success(Record(fb, g1, texture.id))
  }

  /** One call of the first overload, with everything but the generated
      name chosen by the caller. */
  datatype ColorBuffer = ColorBuffer(generated: Name, id: Name, internalFormat: int, format: int,
                                     width: nat, height: nat, index: int)

  /** Every name in the run came from glGenTextures, which never returns 0. */
  predicate Generated(buffers: seq<ColorBuffer>) {
    forall k | 0 <= k < |buffers| :: buffers[k].generated != 0
  }

  /** A run of first-overload attachments, in order: the j-th takes
      attachment point (counter on entry + j) of the bound framebuffer and
      is recorded j-th after the attachments already listed. Points below
      the counter on entry keep their targets, and the framebuffer's own
      name, its depth handle and the framebuffer binding are untouched. */
  method AttachAll(fb: Framebuffer, g: State, buffers: seq<ColorBuffer>) returns (r: Built)
    requires Generated(buffers)
    ensures r.fb.index == fb.index + |buffers|
    ensures |r.fb.colorAttachments| == |fb.colorAttachments| + |buffers|
    ensures r.fb.colorAttachments[..|fb.colorAttachments|] == fb.colorAttachments
    ensures forall k | 0 <= k < |buffers| :: r.fb.colorAttachments[|fb.colorAttachments| + k] == buffers[k].generated
    ensures r.fb.id == fb.id && r.fb.depthAttachment == fb.depthAttachment && r.gl.framebuffer == g.framebuffer
    ensures g.framebuffer != 0 ==>
              forall point | fb.index <= point < fb.index + |buffers| ::
                && (g.framebuffer, point) in r.gl.colorOf
                && r.gl.colorOf[(g.framebuffer, point)] == ColorTarget(buffers[point - fb.index].generated, Whole, 0)
    ensures forall key | key in g.colorOf && key.1 < fb.index :: key in r.gl.colorOf && r.gl.colorOf[key] == g.colorOf[key]
  {
    r := Built(fb, g);
    for i := 0 to |buffers|
      invariant r.fb.index == fb.index + i
      invariant |r.fb.colorAttachments| == |fb.colorAttachments| + i
      invariant r.fb.colorAttachments[..|fb.colorAttachments|] == fb.colorAttachments
      invariant forall k | 0 <= k < i :: r.fb.colorAttachments[|fb.colorAttachments| + k] == buffers[k].generated
      invariant r.fb.id == fb.id && r.fb.depthAttachment == fb.depthAttachment && r.gl.framebuffer == g.framebuffer
      invariant g.framebuffer != 0 ==>
                  forall point | fb.index <= point < fb.index + i ::
                    && (g.framebuffer, point) in r.gl.colorOf
                    && r.gl.colorOf[(g.framebuffer, point)] == ColorTarget(buffers[point - fb.index].generated, Whole, 0)
      invariant forall key | key in g.colorOf && key.1 < fb.index :: key in r.gl.colorOf && r.gl.colorOf[key] == g.colorOf[key]
    {
      var b := buffers[i];
      r := AttachColorBuffer(r.fb, r.gl, b.generated, b.id, b.internalFormat, b.format, b.width, b.height, b.index);
    }
  }

  /** The constructor followed by a run of attachments: `index_` equals the
      number of attachments, the list holds exactly the generated names, and
      they sit at points 0 .. k-1 of the new framebuffer. */
  method CreateAndAttach(g: State, generated: Name, buffers: seq<ColorBuffer>) returns (r: Built)
    requires generated != 0
    requires Generated(buffers)
    ensures r.fb.id == generated && r.fb.index == |buffers|
    ensures |r.fb.colorAttachments| == |buffers|
    ensures forall k | 0 <= k < |buffers| :: r.fb.colorAttachments[k] == buffers[k].generated
    ensures forall point | 0 <= point < |buffers| ::
              (generated, point) in r.gl.colorOf && r.gl.colorOf[(generated, point)] == ColorTarget(buffers[point].generated, Whole, 0)
  {
    var made := Create(g, generated);
    r := AttachAll(made.fb, made.gl, buffers);
  }

  /** `Resize`: sets the viewport only. */
  function Resize(g: State, width: nat, height: nat): (r: State)
    ensures r.viewport == Size(width, height)
    ensures r == g.(viewport := r.viewport)
  {
    Viewport(g, Size(width, height))
  }

  /** A resize after a depth attachment leaves the depth storage at its
      attached size, whatever the new viewport. */
  lemma ResizeKeepsDepth(fb: Framebuffer, g: State, generated: Name, width: nat, height: nat, w: nat, h: nat)
    requires generated != 0 && g.framebuffer != 0
    ensures var attached := AttachDepthBuffer(fb, g, generated, width, height);
            var r := Resize(attached.gl, w, h);
            && r == attached.gl.(viewport := Size(w, h))
            && StoredDepth(r, g.framebuffer) == Some(Size(width, height))
  {
  }

  /** The events glDeleteTextures logs for an array of names. */
  function TextureDeletes(names: seq<Name>): seq<Event> {
    if names == [] then [] else [Deleted(Tex(names[0]))] + TextureDeletes(names[1..])
  }

  /** glDeleteTextures over an array, one name after another: every
      non-zero name in it stops being a live texture, nothing becomes live,
      and framebuffers and renderbuffers are left alone. */
  function DeleteTextures(g: State, names: seq<Name>): (r: State)
    ensures r.events == g.events + TextureDeletes(names)
    ensures forall n | n in names && n != 0 :: Tex(n) !in r.live
    ensures forall o | o in r.live :: o in g.live
    ensures forall o | o in g.live && !o.Tex? :: o in r.live
    ensures r.framebuffer == g.framebuffer && r.renderbuffer == g.renderbuffer
    decreases |names|
  {
    if names == [] then g
    else
      var r := DeleteTextures(DeleteTexture(g, names[0]), names[1..]);
      assert g.events + TextureDeletes(names) == (g.events + [Deleted(Tex(names[0]))]) + TextureDeletes(names[1..]);
      r
  }

  /** The destructor: the framebuffer, every recorded colour attachment,
      then the depth handle, which goes through glDeleteTextures although it
      names a renderbuffer. */
  function Destroy(fb: Framebuffer, g: State): (r: State)
    ensures r.events == g.events + [Deleted(Fbo(fb.id))] + TextureDeletes(fb.colorAttachments)
                       + [Deleted(Tex(fb.depthAttachment))]
    ensures fb.id != 0 ==> Fbo(fb.id) !in r.live
    ensures forall c | c in fb.colorAttachments && c != 0 :: Tex(c) !in r.live
    ensures Rbo(fb.depthAttachment) in g.live ==> Rbo(fb.depthAttachment) in r.live
  {
    var g1 := DeleteFramebuffer(g, fb.id);
    assert g1.events == g.events + [Deleted(Fbo(fb.id))];
    assert fb.id != 0 ==> Fbo(fb.id) !in g1.live;
    assert Rbo(fb.depthAttachment) in g.live ==> Rbo(fb.depthAttachment) in g1.live;
    var g2 := DeleteTextures(g1, fb.colorAttachments);
    var r := DeleteTexture(g2, fb.depthAttachment);
    assert r.live <= g2.live && r.events == g2.events + [Deleted(Tex(fb.depthAttachment))];
    r
  }
}
