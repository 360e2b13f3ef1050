/** A 2D texture (Texture): the channel-count to pixel-format choice and the error
    order of the constructor, the move operations that hand the GL name over, and
    binding to a texture unit. */
module Textures {
  import opened Gl
  import opened Wrappers

  datatype TextureType = None | Diffuse | Specular | Normal | Height

  /** The runtime_error messages the constructor throws. */
  datatype TextureError = UnknownFormat | FailedToLoadTextureData

  /** What stbi_load reports: whether it returned pixel data, and the width, height
      and channel count it left in the texture's fields. */
  datatype Image = Image(loaded: bool, width: int, height: int, channels: int)

  /** The pixel format for a channel count; any other count is an unknown format. */
  function FormatFor(channels: int): (r: Result<PixelFormat, TextureError>)
    ensures r == Ok(Red) <==> channels == 1
    ensures r == Ok(Rgb) <==> channels == 3
    ensures r == Ok(Rgba) <==> channels == 4
    ensures r.Err? <==> r == Err(UnknownFormat)
  {
    if channels == 1 then Ok(Red)
    else if channels == 3 then Ok(Rgb)
    else if channels == 4 then Ok(Rgba)
    else Err(UnknownFormat)
  }

  /** The channel count a pixel format holds. */
  function Channels(f: PixelFormat): int
  {
    match f
    case Red => 1
    case Rgb => 3
    case Rgba => 4
  }

  /** FormatFor recognises exactly the channel counts of the three formats. */
  lemma FormatForChannels(f: PixelFormat, channels: int)
    ensures FormatFor(Channels(f)) == Ok(f)
    ensures FormatFor(channels).Ok? ==> Channels(FormatFor(channels).value) == channels
  {
  }

  /** What the constructor ends with: the format it uploads with, or the error it throws. */
  function LoadOutcome(image: Image): Result<PixelFormat, TextureError>
  {
    match FormatFor(image.channels)
    case Err(e) => Err(e)
    case Ok(format) => if image.loaded then Ok(format) else Err(FailedToLoadTextureData)
  }

  /** The format check comes first: an unsupported channel count is reported as
      UNKNOWN_FORMAT whether or not the pixels loaded, and missing pixels are
      reported only for a supported count. */
  lemma FormatCheckedBeforeLoad(image: Image)
    ensures FormatFor(image.channels).Err? ==> LoadOutcome(image) == Err(UnknownFormat)
    ensures FormatFor(image.channels).Ok? && !image.loaded ==> LoadOutcome(image) == Err(FailedToLoadTextureData)
    ensures LoadOutcome(image).Ok? <==> image.loaded && image.channels in {1, 3, 4}
  {
  }

  class Texture {
    /** m_textureID */
    var id: nat
    var width: int
    var height: int
    /** m_BPP: channels per pixel */
    var bpp: int
    var path: string
    var textureType: TextureType

    constructor Init(id: nat, width: int, height: int, bpp: int, path: string)
      ensures this.id == id && this.width == width && this.height == height && this.bpp == bpp
      ensures this.path == path && textureType == TextureType.None
    {
      this.id, this.width, this.height, this.bpp := id, width, height, bpp;
      this.path := path;
      textureType := TextureType.None;
    }

    /** Texture::Texture: generate and configure a texture named `name`, load the image
        at `path` (its outcome is `image`), pick the format, and upload. The GL name is
        generated before anything can throw. */
    static method Load(gl: Context, path: string, image: Image, name: nat)
      returns (r: Result<Texture, TextureError>)
      modifies gl
      ensures r.Err? <==> LoadOutcome(image).Err?
      ensures r.Err? ==> r.error == LoadOutcome(image).error
      ensures r.Ok? ==>
        && fresh(r.value)
        && r.value.id == name && r.value.path == path && r.value.textureType == TextureType.None
        && r.value.width == image.width && r.value.height == image.height && r.value.bpp == image.channels
      ensures gl.trace == old(gl.trace) + [GenTexture(name), BindTexture2D(name), TexParameters(name)]
        + if LoadOutcome(image).Ok?
          then [TexImage2D(LoadOutcome(image).value, image.width, image.height), GenerateMipmap]
          else []
    {
      gl.Issue(GenTexture(name));
      gl.Issue(BindTexture2D(name));
      gl.Issue(TexParameters(name));
      var format := FormatFor(image.channels);
      if format.Err? {
        return Err(UnknownFormat);
      }
      if !image.loaded {
        return Err(FailedToLoadTextureData);
      }
      gl.Issue(TexImage2D(format.value, image.width, image.height));
      gl.Issue(GenerateMipmap);
      var texture := new Texture.Init(name, image.width, image.height, image.channels, path);
      r := Ok(texture);
    }

    /** The move constructor: takes the GL name and the size, and leaves the source
        without a GL name. The path and type are not carried over. */
    constructor MoveFrom(other: Texture)
      modifies other
      ensures id == old(other.id) && width == old(other.width) && height == old(other.height) && bpp == old(other.bpp)
      ensures path == "" && textureType == TextureType.None
      ensures other.id == 0
      ensures other.width == old(other.width) && other.height == old(other.height) && other.bpp == old(other.bpp)
      ensures other.path == old(other.path) && other.textureType == old(other.textureType)
    {
      id, width, height, bpp := other.id, other.width, other.height, other.bpp;
      path := "";
      textureType := TextureType.None;
      new;
      other.id := 0;
    }

    /** Move assignment: a self-move does nothing; otherwise the texture's own GL name
        is deleted first, then the source's name and size are taken and the source
        is left without a GL name. Path and type stay as they were. */
    method MoveAssign(gl: Context, other: Texture)
      modifies this, other, gl
      ensures other == this ==> unchanged(this) && gl.trace == old(gl.trace)
      ensures other != this ==>
        && id == old(other.id) && width == old(other.width) && height == old(other.height) && bpp == old(other.bpp)
        && path == old(path) && textureType == old(textureType)
        && other.id == 0
        && other.width == old(other.width) && other.height == old(other.height) && other.bpp == old(other.bpp)
        && other.path == old(other.path) && other.textureType == old(other.textureType)
        && gl.trace == old(gl.trace) + [DeleteTexture(old(id))]
    {
      if other != this {
        gl.Issue(DeleteTexture(id));
        id, width, height, bpp := other.id, other.width, other.height, other.bpp;
        other.id := 0;
      }
    }

    /** Select texture unit `slot` and bind this texture to it. */
    method Bind(gl: Context, slot: nat)
      modifies gl
      ensures gl.trace == old(gl.trace) + [ActiveTexture(TEXTURE0 + slot), BindTexture2D(id)]
    {
      gl.Issue(ActiveTexture(TEXTURE0 + slot));
      gl.Issue(BindTexture2D(id));
    }

    method SetType(t: TextureType)
      modifies this
      ensures textureType == t
      ensures id == old(id) && width == old(width) && height == old(height) && bpp == old(bpp) && path == old(path)
    {
      textureType := t;
    }
  }
}
