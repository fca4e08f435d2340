/**
  The 2D texture wrapper: its three constructors, the private reloader and
  `Bind`. The image decoder (stb_image) is an input: `decoded` is what it
  returns for the path, `None` standing for a null pixel pointer.
*/
module Texture2D {
  import opened Wrappers
  import opened Gl

  /** What the decoder reports through its out-parameters on success. */
  datatype Image = Image(width: nat, height: nat, channels: nat)

  datatype Texture = Texture(id: Name, width: nat, height: nat, channels: nat, initialized: bool)

  /** Messages the wrapper prints to standard output. */
  datatype Diagnostic = FailedToLoadAt(path: string) | InvalidFormat | FailedToLoadImage

  datatype Made = Made(texture: Texture, gl: State, diagnostics: seq<Diagnostic>)

  /** The pixel format chosen for an 8-bit image with `channels` components;
      `None` when the source leaves its local `format` unassigned. */
  function ChannelFormat(channels: nat): (format: Option<int>)
    ensures format.Some? <==> channels == 1 || channels == 3 || channels == 4
    ensures format.Some? ==> format.value in {RED, RGB, RGBA} && Components(format.value) == channels
  {
    if channels == 1 then Some(RED)
    else if channels == 3 then Some(RGB)
    else if channels == 4 then Some(RGBA)
    else None
  }

  /** Number of components of a GL pixel format (an independent table). */
  function Components(format: int): nat {
    if format == RED then 1
    else if format == RG16F then 2
    else if format == RGB || format == RGB16F then 3
    else if format == RGBA || format == RGBA16F then 4
    else 0
  }

  /** The channel-to-format table and the component count of a format are
      inverse to each other on 1, 3 and 4 channels, and no other count gets a
      format. */
  lemma ChannelFormatMatchesComponents(channels: nat)
    ensures ChannelFormat(channels).Some? <==> channels == 1 || channels == 3 || channels == 4
    ensures ChannelFormat(channels).Some? ==> Components(ChannelFormat(channels).value) == channels
    ensures forall f :: f in {RED, RGB, RGBA} ==> ChannelFormat(Components(f)) == Some(f)
  {
  }

  /** Upload at level 0 of the texture bound on the active unit, then mipmaps:
      that texture, if any, ends up with the image's size at level 0 and a
      full mip chain, and nothing else changes. */
  function Upload(g: State, img: Image, internalFormat: int): (r: State)
    ensures var n := Bound(g, Flat);
            r == g.(textures := if n == 0 then g.textures else g.textures[n := FullImage(img, internalFormat)])
    ensures Bound(g, Flat) != 0 ==> LevelSize(r.textures[Bound(g, Flat)], 0) == Size(img.width, img.height)
  {
    GenerateMipmap(TexImage2D(g, Flat, Size(img.width, img.height), internalFormat), Flat)
  }

  function FullImage(img: Image, internalFormat: int): TexImage {
    var side := if img.width < img.height then img.height else img.width;
    TexImage(Flat, Size(img.width, img.height), internalFormat, MipLevels(side))
  }

  /** `Texture2D(path)`: 8-bit decode, format from the channel count. */
  function FromPath(g: State, id: Name, path: string, decoded: Option<Image>): (r: Made)
    requires id != 0
    ensures r.texture.id == id
    ensures r.texture.initialized <==> decoded.Some?
    ensures decoded.None? ==> r.texture.width == 0 && r.texture.height == 0 && r.texture.channels == 0
    ensures decoded.None? ==> r.diagnostics == [FailedToLoadAt(path)]
    ensures decoded.Some? ==> r.diagnostics == []
    ensures decoded.Some? && ChannelFormat(decoded.value.channels).Some? ==>
      r.gl.textures == g.textures[id := FullImage(decoded.value, ChannelFormat(decoded.value.channels).value)]
    ensures decoded.None? || ChannelFormat(decoded.value.channels).None? ==> r.gl.textures == g.textures
    ensures r.gl.live == g.live + {Tex(id)}
    ensures r.gl.events == g.events + [Created(Tex(id)), Decoded(path)]
  {
    var g1 := DecodeCall(Gen(g, Tex(id)), path);
    match decoded
    case None =>
      Made(Texture(id, 0, 0, 0, false), g1, [FailedToLoadAt(path)])
    case Some(img) =>
      var g2 := BindTexture(g1, Flat, id);
      var g3 := match ChannelFormat(img.channels)
        case Some(format) => Upload(g2, img, format)
        case None => g2;   // glTexImage2D rejects the unassigned format
      Made(Texture(id, img.width, img.height, img.channels, true), g3, [])
  }

  /** `Texture2D(path, internal_format)`: GL_RGB decodes 8-bit and always
      uploads as GL_RGB; GL_RGBA16F decodes floats; any other format decodes
      nothing. */
  function WithFormat(g: State, id: Name, path: string, internalFormat: int, decoded: Option<Image>): (r: Made)
    requires id != 0
    ensures r.texture.id == id
    ensures r.texture.initialized <==> (internalFormat == RGB || internalFormat == RGBA16F) && decoded.Some?
    ensures !r.texture.initialized ==> r.texture.width == 0 && r.texture.height == 0 && r.texture.channels == 0
    ensures r.texture.initialized ==> r.gl.textures == g.textures[id := FullImage(decoded.value, internalFormat)]
    ensures !r.texture.initialized ==> r.gl.textures == g.textures
    ensures internalFormat == RGB ==>
      r.diagnostics ==
        (if decoded.Some? && decoded.value.channels in {3, 4} then [] else [InvalidFormat])
        + (if decoded.None? then [FailedToLoadImage] else [])
    ensures internalFormat == RGBA16F ==> r.diagnostics == (if decoded.None? then [FailedToLoadImage] else [])
    ensures internalFormat != RGB && internalFormat != RGBA16F ==> r.diagnostics == [] && r.gl.events == g.events + [Created(Tex(id))]
    ensures (internalFormat == RGB || internalFormat == RGBA16F) ==> r.gl.events == g.events + [Created(Tex(id)), Decoded(path)]
    ensures r.gl.live == g.live + {Tex(id)}
    ensures UnitTexture(r.gl.flatUnits, r.gl.activeUnit) == id
    ensures r.gl == g.(textures := r.gl.textures, flatUnits := r.gl.flatUnits, live := r.gl.live, events := r.gl.events)
  {
    var g1 := BindTexture(Gen(g, Tex(id)), Flat, id);
    if internalFormat == RGB then
      var g2 := DecodeCall(g1, path);
      var channels := if decoded.Some? then decoded.value.channels else 0;
      var warn := if channels != 4 && channels != 3 then [InvalidFormat] else [];
      match decoded
      case Some(img) =>
        Made(Texture(id, img.width, img.height, img.channels, true), Upload(g2, img, internalFormat), warn)
      case None =>
        Made(Texture(id, 0, 0, 0, false), g2, warn + [FailedToLoadImage])
    else if internalFormat == RGBA16F then
      var g2 := DecodeCall(g1, path);
      match decoded
      case Some(img) =>
        Made(Texture(id, img.width, img.height, img.channels, true), Upload(g2, img, internalFormat), [])
      case None =>
        Made(Texture(id, 0, 0, 0, false), g2, [FailedToLoadImage])
    else
      Made(Texture(id, 0, 0, 0, false), g1, [])
  }

  /** `Texture2D()`: only the in-class initialisers run; the name and the
      channel count are whatever the memory held, hence parameters. */
  function Empty(garbageId: Name, garbageChannels: nat): (t: Texture)
    ensures !t.initialized && t.width == 0 && t.height == 0
  {
    Texture(garbageId, 0, 0, garbageChannels, false)
  }

  /** A default-constructed texture can never be bound: `Bind` fails its
      assertion on every unit, and the reloader, which leaves the flag as
      it was, does not make it bindable either. */
  lemma EmptyCannotBind(g: State, garbageId: Name, garbageChannels: nat, slot: nat,
                        id: Name, path: string, decoded: Option<Image>)
    ensures Bind(g, Empty(garbageId, garbageChannels), slot) == Failure(TextureNotInitialized)
    ensures id != 0 ==>
              Bind(g, LoadTexture(g, Empty(garbageId, garbageChannels), id, path, decoded).texture, slot)
              == Failure(TextureNotInitialized)
  {
  }

  /** The private `LoadTexture`: a fresh name and the 8-bit upload of
      `Texture2D(path)`, but the initialised flag is left as it was. */
  function LoadTexture(g: State, t: Texture, id: Name, path: string, decoded: Option<Image>): (r: Made)
    requires id != 0
    ensures r.texture.initialized == t.initialized
    ensures r.texture.id == id
    ensures decoded.None? ==> r.texture == t.(id := id) && r.diagnostics == [FailedToLoadAt(path)]
    ensures decoded.Some? ==> r.texture == Texture(id, decoded.value.width, decoded.value.height, decoded.value.channels, t.initialized)
    ensures decoded.Some? && ChannelFormat(decoded.value.channels).Some? ==>
      r.gl.textures == g.textures[id := FullImage(decoded.value, ChannelFormat(decoded.value.channels).value)]
  {
    var made := FromPath(g, id, path, decoded);
    var loaded := made.texture;
    match decoded
    case None => Made(t.(id := id), made.gl, made.diagnostics)
    case Some(img) => Made(loaded.(initialized := t.initialized), made.gl, made.diagnostics)
  }

  /** `Bind(slot)`: the debug assertion on the initialised flag, then the
      texture is bound to GL_TEXTURE_2D of unit `slot`. */
  function Bind(g: State, t: Texture, slot: nat): (r: Result<State, Fault>)
    ensures r.Success? <==> t.initialized
    ensures r.Failure? ==> r.error == TextureNotInitialized
    ensures r.Success? ==> r.value == g.(activeUnit := slot, flatUnits := r.value.flatUnits)
    ensures r.Success? ==> r.value.flatUnits == g.flatUnits[slot := t.id]
    ensures r.Success? ==> UnitTexture(r.value.flatUnits, slot) == t.id
    ensures r.Success? ==> forall u | u != slot :: UnitTexture(r.value.flatUnits, u) == UnitTexture(g.flatUnits, u)
  {
    if !t.initialized then Failure(TextureNotInitialized)
    else Success(BindTexture(ActiveTexture(g, slot), Flat, t.id))
  }
}
