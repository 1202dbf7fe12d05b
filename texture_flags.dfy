/** Texture types and the 16-bit texture flag word of the material
    interface (IMaterial.hpp). */
module TextureFlags {

  /** `enum TextureType : uint8_t`. */
  datatype TextureType = Albedo | Normal | Physical | Lightmap

  function TypeValue(t: TextureType): (v: nat)
    ensures v < 4
    ensures t.Albedo? <==> v == 0
    ensures t.Normal? <==> v == 1
    ensures t.Physical? <==> v == 2
    ensures t.Lightmap? <==> v == 3
  {
    match t
    case Albedo => 0
    case Normal => 1
    case Physical => 2
    case Lightmap => 3
  }

  type Flags = bv16

  const Static: Flags := 1 << 0
  const Dynamic: Flags := 1 << 1
  const Linear: Flags := 1 << 2
  const Nearest: Flags := 1 << 3
  const NoMip: Flags := 1 << 4
  const Repeat: Flags := 1 << 5
  const RepeatMirror: Flags := 1 << 6
  const RepeatClampToEdge: Flags := 1 << 7
  const Greyscale: Flags := 1 << 8
  const RGB: Flags := 1 << 9
  const RGBA: Flags := 1 << 10
  const ByteSized: Flags := 1 << 11
  const FloatSized: Flags := 1 << 12

  const DefaultTextureFlags: Flags := Static | Linear | Repeat | RGB | ByteSized

  /** The thirteen flags in declaration order. */
  const AllFlags: seq<Flags> := [Static, Dynamic, Linear, Nearest, NoMip, Repeat, RepeatMirror,
                                 RepeatClampToEdge, Greyscale, RGB, RGBA, ByteSized, FloatSized]

  predicate Has(flags: Flags, bit: Flags) { flags & bit != 0 }

  predicate IsSingleBit(x: Flags) { x != 0 && x & (x - 1) == 0 }

  /** Flag k is the single bit 1 << k, so every flag is one bit and no two share one. */
  lemma FlagsAreDistinctBits()
    ensures |AllFlags| == 13
    ensures forall k :: 0 <= k < 13 ==> AllFlags[k] == (1 as Flags) << k as bv5
    ensures forall k :: 0 <= k < 13 ==> IsSingleBit(AllFlags[k])
    ensures forall j, k :: 0 <= j < k < 13 ==> AllFlags[j] & AllFlags[k] == 0
  {
  }

  /** The default flags are exactly static, linear filtering, normal
      repeating, RGB and 8 bits per channel. */
  lemma DefaultFlagsContents()
    ensures DefaultTextureFlags == 0x0A25
    ensures forall k :: 0 <= k < 13 ==>
      (Has(DefaultTextureFlags, AllFlags[k]) <==> k in {0, 2, 5, 9, 11})
  {
  }
}
