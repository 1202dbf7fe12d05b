/** A texture: the frontend part (names, type, flags, the channel-count
    rewrite of LoadFromFile) merged with the OpenGL 4.5 part (the upload
    format, wrap mode and filter chosen from the flags by LoadDirect). */
module Textures {
  import opened Options
  import opened RenderTypes
  import TF = TextureFlags

  /** Upload formats passed to `glTexImage2D`. */
  datatype PixelFormat = RGB | RGB32F | RGBA8 | RGBA32F | R8 | R32F

  /** Per-component data types passed to `glTexImage2D`. */
  datatype DataType = UnsignedByte | Float

  datatype WrapMode = Repeat | ClampToEdge | MirroredRepeat

  datatype Filter = Linear | Nearest | LinearMipmapLinear | NearestMipmapLinear

  /** Components per texel that a format names. */
  function Components(f: PixelFormat): (n: nat)
    ensures 1 <= n <= 4
    ensures n == 1 <==> f.R8? || f.R32F?
    ensures n == 4 <==> f.RGBA8? || f.RGBA32F?
  {
    match f
    case R8 | R32F => 1
    case RGB | RGB32F => 3
    case RGBA8 | RGBA32F => 4
  }

  predicate IsFloatFormat(f: PixelFormat)
  {
    f.RGB32F? || f.RGBA32F? || f.R32F?
  }

  predicate UsesMipmaps(f: Filter)
  {
    f.LinearMipmapLinear? || f.NearestMipmapLinear?
  }

  /** The data type chosen by LoadDirect: float exactly for float-sized textures. */
  function TextureDataType(flags: TF.Flags): (d: DataType)
    ensures d.Float? <==> TF.Has(flags, TF.FloatSized)
  {
    if TF.Has(flags, TF.FloatSized) then Float else UnsignedByte
  }

  /** The format chosen by LoadDirect, as its chain of reassignments:
      RGB, float-sized RGB, then RGBA overriding, then greyscale overriding last. */
  function TextureFormat(flags: TF.Flags): (fmt: PixelFormat)
    ensures TF.Has(flags, TF.Greyscale) ==>
      fmt == (if TF.Has(flags, TF.FloatSized) then R32F else R8)
    ensures !TF.Has(flags, TF.Greyscale) && TF.Has(flags, TF.RGBA) ==>
      fmt == (if TF.Has(flags, TF.FloatSized) then RGBA32F else RGBA8)
    ensures !TF.Has(flags, TF.Greyscale) && !TF.Has(flags, TF.RGBA) ==>
      fmt == (if TF.Has(flags, TF.FloatSized) then RGB32F else RGB)
  {
    var start := if TF.Has(flags, TF.FloatSized) then RGB32F else RGB;
    var afterRGBA := if TF.Has(flags, TF.RGBA) then
                       (if TF.Has(flags, TF.FloatSized) then RGBA32F else RGBA8)
                     else start;
    if TF.Has(flags, TF.Greyscale) then
      (if TF.Has(flags, TF.FloatSized) then R32F else R8)
    else afterRGBA
  }

  /** The format and the data type always agree on float versus byte components. */
  lemma FormatAgreesWithDataType(flags: TF.Flags)
    ensures IsFloatFormat(TextureFormat(flags)) <==> TextureDataType(flags).Float?
  {
  }

  /** DetermineTextureRepeat: repeat, clamp if asked, mirror overriding clamp. */
  function WrapModeFor(flags: TF.Flags): (w: WrapMode)
    ensures TF.Has(flags, TF.RepeatMirror) ==> w == MirroredRepeat
    ensures !TF.Has(flags, TF.RepeatMirror) && TF.Has(flags, TF.RepeatClampToEdge) ==> w == ClampToEdge
    ensures w == Repeat <==> !TF.Has(flags, TF.RepeatMirror) && !TF.Has(flags, TF.RepeatClampToEdge)
  {
    var afterClamp := if TF.Has(flags, TF.RepeatClampToEdge) then ClampToEdge else Repeat;
    if TF.Has(flags, TF.RepeatMirror) then MirroredRepeat else afterClamp
  }

  /** DetermineTextureFilter: (magnification, minification). */
  function FilterFor(flags: TF.Flags): (r: (Filter, Filter))
    ensures r.0 == (if TF.Has(flags, TF.Nearest) then Nearest else Linear)
    ensures TF.Has(flags, TF.NoMip) ==> r.1 == r.0
    ensures !TF.Has(flags, TF.NoMip) ==>
      r.1 == (if TF.Has(flags, TF.Nearest) then NearestMipmapLinear else LinearMipmapLinear)
  {
    var mag := if TF.Has(flags, TF.Nearest) then Nearest else Linear;
    var min := if TF.Has(flags, TF.Nearest) then NearestMipmapLinear else LinearMipmapLinear;
    (mag, if TF.Has(flags, TF.NoMip) then mag else min)
  }

  /** Minification samples the mipmap chain exactly when NoMip is clear, and
      magnification never does. */
  lemma NoMipDisablesMipmapSampling(flags: TF.Flags)
    ensures UsesMipmaps(FilterFor(flags).1) <==> !TF.Has(flags, TF.NoMip)
    ensures !UsesMipmaps(FilterFor(flags).0)
  {
  }

  /** A texture created with the default flags is an 8-bit RGB texture that
      repeats and filters linearly through its mipmaps. */
  lemma DefaultFlagsUpload()
    ensures TextureFormat(TF.DefaultTextureFlags) == RGB
    ensures TextureDataType(TF.DefaultTextureFlags) == UnsignedByte
    ensures WrapModeFor(TF.DefaultTextureFlags) == Repeat
    ensures FilterFor(TF.DefaultTextureFlags) == (Linear, LinearMipmapLinear)
  {
  }

  const ChannelBits: TF.Flags := TF.Greyscale | TF.RGB | TF.RGBA

  /** The flag rewrite of LoadFromFile for a decoded channel count: one
      channel means greyscale, three mean RGB, anything else RGBA. */
  function ChannelFlags(flags: TF.Flags, channels: int): (r: TF.Flags)
    ensures r & !ChannelBits == flags & !ChannelBits
    ensures TF.Has(r, TF.Greyscale) <==> channels == 1
    ensures TF.Has(r, TF.RGB) <==> channels == 3
    ensures TF.Has(r, TF.RGBA) <==> channels != 1 && channels != 3
  {
    if channels == 1 then (flags & !(TF.RGB | TF.RGBA)) | TF.Greyscale
    else if channels == 3 then (flags & !(TF.RGBA | TF.Greyscale)) | TF.RGB
    else (flags & !(TF.RGB | TF.Greyscale)) | TF.RGBA
  }

  /** The rewrite with its masks written out as numbers. */
  lemma ChannelFlagsMasks(flags: TF.Flags, channels: int)
    ensures channels == 1 ==> ChannelFlags(flags, channels) == (flags & 0xF9FF) | 0x0100
    ensures channels == 3 ==> ChannelFlags(flags, channels) == (flags & 0xFAFF) | 0x0200
    ensures channels != 1 && channels != 3 ==> ChannelFlags(flags, channels) == (flags & 0xFCFF) | 0x0400
  {
  }

  /** Rewriting twice for the same count is the same as rewriting once. */
  lemma ChannelFlagsIdempotent(flags: TF.Flags, channels: int)
    ensures ChannelFlags(ChannelFlags(flags, channels), channels) == ChannelFlags(flags, channels)
  {
    var once := ChannelFlags(flags, channels);
    ChannelFlagsMasks(flags, channels);
    ChannelFlagsMasks(once, channels);
    var keep: TF.Flags := if channels == 1 then 0xF9FF else if channels == 3 then 0xFAFF else 0xFCFF;
    var bit: TF.Flags := if channels == 1 then 0x0100 else if channels == 3 then 0x0200 else 0x0400;
    MaskThenSetIdempotent(flags, keep, bit);
  }

  /** Clearing with a mask and setting bits a second time changes nothing. */
  lemma MaskThenSetIdempotent(x: TF.Flags, keep: TF.Flags, bit: TF.Flags)
    ensures (((x & keep) | bit) & keep) | bit == (x & keep) | bit
  {
  }

  /** After the rewrite, the upload format has one component for one channel,
      three for three channels and four otherwise, in the precision the
      FloatSized flag picks. */
  lemma ChannelFlagsSelectFormat(flags: TF.Flags, channels: int)
    ensures Components(TextureFormat(ChannelFlags(flags, channels)))
         == (if channels == 1 then 1 else if channels == 3 then 3 else 4)
    ensures IsFloatFormat(TextureFormat(ChannelFlags(flags, channels))) <==> TF.Has(flags, TF.FloatSized)
  {
  }

  /** What `stbi_load` reports about a decoded image. */
  datatype ImageInfo = ImageInfo(width: int, height: int, channels: int)

  /** `stbi_load(path, …, 3)`: the decoded buffer always holds this many
      components per texel, whatever the file's own channel count. */
  const RequestedComponents: nat := 3

  /** The arguments of the last `glTexImage2D`, `glTexParameteri` and
      `glGenerateMipmap` calls of LoadDirect, i.e. the state of the GL
      texture object. */
  datatype Upload = Upload(
    width: int,
    height: int,
    internalFormat: PixelFormat,
    pixelFormat: PixelFormat,
    dataType: DataType,
    wrapS: WrapMode,
    wrapT: WrapMode,
    magFilter: Filter,
    minFilter: Filter,
    mipmapsGenerated: bool)

  function UploadFor(width: int, height: int, flags: TF.Flags): (u: Upload)
    ensures u.internalFormat == u.pixelFormat == TextureFormat(flags)
    ensures u.dataType == TextureDataType(flags)
    ensures u.wrapS == u.wrapT == WrapModeFor(flags)
    ensures (u.magFilter, u.minFilter) == FilterFor(flags)
    ensures u.width == width && u.height == height && u.mipmapsGenerated
  {
    var fmt := TextureFormat(flags);
    var filters := FilterFor(flags);
    Upload(width, height, fmt, fmt, TextureDataType(flags), WrapModeFor(flags), WrapModeFor(flags),
           filters.0, filters.1, true)
  }

  const BuiltinFileName: string := "#builtin"

  class Texture {
    var name: string
    var fileName: string
    var textureType: TF.TextureType
    var flags: TF.Flags
    /** Left uninitialised by the source until a file is decoded. */
    var width: int
    var height: int
    var textureHandle: u32
    var loaded: bool
    /** The GL texture object's image and parameters, once uploaded. */
    var upload: Option<Upload>

    constructor ()
      ensures name == "Default" && fileName == BuiltinFileName
      ensures textureType == TF.Albedo && flags == TF.DefaultTextureFlags
      ensures textureHandle == 0 && !loaded && upload == None
    {
      name := "Default";
      fileName := BuiltinFileName;
      textureType := TF.Albedo;
      flags := TF.DefaultTextureFlags;
      width, height := 0, 0;
      textureHandle := 0;
      loaded := false;
      upload := None;
    }

    /** `glCreateTextures`; the new texture name comes from the driver. */
    method Init(handle: u32)
      modifies this
      ensures textureHandle == handle
      ensures name == old(name) && fileName == old(fileName) && flags == old(flags)
      ensures textureType == old(textureType) && loaded == old(loaded) && upload == old(upload)
      ensures width == old(width) && height == old(height)
    {
      textureHandle := handle;
    }

    /** The full path of a loaded texture, or the custom name of a generated one. */
    function GetName(): (n: string)
      reads this
      ensures fileName == BuiltinFileName ==> n == name
      ensures fileName != BuiltinFileName ==> n == fileName
    {
      if fileName == BuiltinFileName then name else fileName
    }

    method SetName(newName: string)
      modifies this
      ensures name == newName
      ensures fileName == old(fileName) && flags == old(flags) && textureType == old(textureType)
      ensures loaded == old(loaded) && upload == old(upload) && textureHandle == old(textureHandle)
      ensures width == old(width) && height == old(height)
    {
      name := newName;
    }

    function GetTextureType(): TF.TextureType
      reads this
    {
      textureType
    }

    method SetTextureType(newType: TF.TextureType)
      modifies this
      ensures GetTextureType() == newType
      ensures name == old(name) && fileName == old(fileName) && flags == old(flags)
      ensures loaded == old(loaded) && upload == old(upload) && textureHandle == old(textureHandle)
      ensures width == old(width) && height == old(height)
    {
      textureType := newType;
    }

    function GetTextureFlags(): TF.Flags
      reads this
    {
      flags
    }

    method SetTextureFlags(newFlags: TF.Flags)
      modifies this
      ensures GetTextureFlags() == newFlags
      ensures name == old(name) && fileName == old(fileName) && textureType == old(textureType)
      ensures loaded == old(loaded) && upload == old(upload) && textureHandle == old(textureHandle)
      ensures width == old(width) && height == old(height)
    {
      flags := newFlags;
    }

    /** Texture::Bind: the texture unit is made active only while the texture
        is not loaded yet (during its own upload); the result is the unit
        activated, if any. */
    method Bind(unit: nat) returns (activated: Option<nat>)
      requires unit < 256
      ensures activated.Some? <==> !loaded
      ensures activated.Some? ==> activated.value == unit
    {
      if !loaded {
        activated := Some(unit);
      } else {
        activated := None;
      }
    }

    /** Texture::LoadDirect: stores the flags and type, uploads with the format,
        wrap mode and filter those flags select, and marks the texture loaded. */
    method LoadDirect(textureWidth: int, textureHeight: int, newType: TF.TextureType, newFlags: TF.Flags)
      modifies this
      ensures flags == newFlags && textureType == newType && loaded
      ensures upload == Some(UploadFor(textureWidth, textureHeight, newFlags))
      ensures name == old(name) && fileName == old(fileName) && textureHandle == old(textureHandle)
      ensures width == old(width) && height == old(height)
    {
      loaded := false;
      flags := newFlags;
      textureType := newType;
      var activated := Bind(0);
      assert activated == Some(0);
      upload := Some(UploadFor(textureWidth, textureHeight, flags));
      loaded := true;
    }

    /** The channel-count rewrite of the flags, in LoadFromFile's steps. */
    method RewriteChannelFlags(channels: int)
      modifies this
      ensures flags == ChannelFlags(old(flags), channels)
      ensures name == old(name) && fileName == old(fileName) && textureType == old(textureType)
      ensures loaded == old(loaded) && upload == old(upload) && textureHandle == old(textureHandle)
      ensures width == old(width) && height == old(height)
    {
      ChannelFlagsMasks(flags, channels);
      if channels == 1 {
        flags := flags & !(TF.RGB | TF.RGBA);
        flags := flags | TF.Greyscale;
      } else if channels == 3 {
        flags := flags & !(TF.RGBA | TF.Greyscale);
        flags := flags | TF.RGB;
      } else {
        flags := flags & !(TF.RGB | TF.Greyscale);
        flags := flags | TF.RGBA;
      }
    }

    /** FrontendTexture::LoadFromFile with the decoder's outcome as a parameter
        (None when `stbi_load` returns null). The path is stored first; on
        failure nothing else changes. */
    method LoadFromFile(path: string, image: Option<ImageInfo>) returns (ok: bool)
      modifies this
      ensures fileName == path
      ensures ok <==> image.Some?
      ensures !ok ==> flags == old(flags) && loaded == old(loaded) && upload == old(upload)
      ensures !ok ==> width == old(width) && height == old(height)
      ensures ok ==> width == image.value.width && height == image.value.height
      ensures ok ==> flags == ChannelFlags(old(flags), image.value.channels) && loaded
      ensures ok ==> upload == Some(UploadFor(image.value.width, image.value.height, flags))
      ensures path != BuiltinFileName ==> GetName() == path
      ensures name == old(name) && textureType == old(textureType) && textureHandle == old(textureHandle)
    {
      fileName := path;
      if image.None? {
        return false;
      }
      width, height := image.value.width, image.value.height;
      RewriteChannelFlags(image.value.channels);
      LoadDirect(width, height, textureType, flags);
      return true;
    }
  }

  /** A texel of the upload reads this many components from the decoded buffer. */
  function UploadComponents(u: Upload): nat
  {
    Components(u.pixelFormat)
  }

  /** As written, the decoder is always asked for three components, while the
      upload format follows the file's own channel count: a four-channel
      byte image is uploaded as four components per texel from a buffer of
      three, and a one-channel image as one from three. */
  lemma DecodedBufferMismatch(flags: TF.Flags)
    ensures UploadComponents(UploadFor(64, 64, ChannelFlags(flags, 4))) == 4 != RequestedComponents
    ensures UploadComponents(UploadFor(64, 64, ChannelFlags(flags, 1))) == 1 != RequestedComponents
  {
    ChannelFlagsSelectFormat(flags, 4);
    ChannelFlagsSelectFormat(flags, 1);
  }

  /** The component count to request from the decoder so that its buffer has
      the layout the rewritten flags upload: the one the format names. */
  function RequestedComponentsFor(channels: int): (n: nat)
    ensures n == 1 || n == 3 || n == 4
    ensures forall flags: TF.Flags ::
      n == Components(TextureFormat(ChannelFlags(flags, channels)))
  {
    ChannelFlagsSelectFormatAll(channels);
    if channels == 1 then 1 else if channels == 3 then 3 else 4
  }

  lemma ChannelFlagsSelectFormatAll(channels: int)
    ensures forall flags: TF.Flags ::
      Components(TextureFormat(ChannelFlags(flags, channels)))
        == (if channels == 1 then 1 else if channels == 3 then 3 else 4)
  {
    forall flags: TF.Flags
      ensures Components(TextureFormat(ChannelFlags(flags, channels)))
           == (if channels == 1 then 1 else if channels == 3 then 3 else 4)
    {
      ChannelFlagsSelectFormat(flags, channels);
    }
  }
}
