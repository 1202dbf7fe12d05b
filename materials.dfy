/** The render frontend's material: a name, a shader reference and an
    ordered list of texture references. */
module Materials {
  import opened Options
  import opened TextureFlags
  import opened Textures
  import opened Shaders

  /** How many of `types` equal `t`. */
  function CountOf(types: seq<TextureType>, t: TextureType): (n: nat)
    ensures n <= |types|
  {
    if types == [] then 0 else (if types[0] == t then 1 else 0) + CountOf(types[1..], t)
  }

  /** The position, at or after `from`, of the texture of type `t` that
      has `order` textures of that type between `from` and it; None for a
      negative order or when there are not that many. */
  function NthFrom(types: seq<TextureType>, t: TextureType, order: int, from: nat): (r: Option<nat>)
    requires from <= |types|
    ensures r.Some? ==> from <= r.value < |types| && types[r.value] == t
    decreases |types| - from
  {
    if from == |types| then None
    else if types[from] == t && order == 0 then Some(from)
    else NthFrom(types, t, if types[from] == t then order - 1 else order, from + 1)
  }

  /** The position of the `order`-th texture of type `t`, counting from 0. */
  function NthOfType(types: seq<TextureType>, t: TextureType, order: int): Option<nat>
  {
    NthFrom(types, t, order, 0)
  }

  lemma {:induction false} NthFromMeaning(types: seq<TextureType>, t: TextureType, order: int, from: nat)
    requires from <= |types|
    ensures NthFrom(types, t, order, from).Some? <==> 0 <= order < CountOf(types[from..], t)
    ensures NthFrom(types, t, order, from).Some? ==>
      CountOf(types[from..NthFrom(types, t, order, from).value], t) == order
    decreases |types| - from
  {
    if from < |types| {
      var next := if types[from] == t then order - 1 else order;
      NthFromMeaning(types, t, next, from + 1);
      assert types[from..][1..] == types[from + 1..];
      var r := NthFrom(types, t, order, from);
      if r.Some? && r.value > from {
        assert types[from..r.value][1..] == types[from + 1..r.value];
      }
    }
  }

  /** The lookup succeeds exactly for 0 <= order < the number of textures of
      that type, and what it finds is of that type and has exactly `order`
      of them before it. */
  lemma NthOfTypeMeaning(types: seq<TextureType>, t: TextureType, order: int)
    ensures NthOfType(types, t, order).Some? <==> 0 <= order < CountOf(types, t)
    ensures NthOfType(types, t, order).Some? ==>
      types[NthOfType(types, t, order).value] == t &&
      CountOf(types[..NthOfType(types, t, order).value], t) == order
  {
    NthFromMeaning(types, t, order, 0);
    assert types[0..] == types;
    if NthOfType(types, t, order).Some? {
      assert types[0..NthOfType(types, t, order).value] == types[..NthOfType(types, t, order).value];
    }
  }

  /** The texture types of a texture list, in order. */
  function TypesOf(ts: seq<Texture>): (types: seq<TextureType>)
    reads ts
    ensures |types| == |ts|
    ensures forall k :: 0 <= k < |ts| ==> types[k] == ts[k].textureType
  {
    if ts == [] then [] else [ts[0].textureType] + TypesOf(ts[1..])
  }

  /** Material::AddTexture as written: the loop variable shadows the
      parameter, so unless forced nothing is added to a non-empty list. */
  function AddedAsWritten(ts: seq<Texture>, texture: Texture, force: bool): seq<Texture>
  {
    if force || ts == [] then ts + [texture] else ts
  }

  /** AddTexture as its documentation describes it: a texture already in
      the list is not added again unless forced. */
  function AddedAsDocumented(ts: seq<Texture>, texture: Texture, force: bool): seq<Texture>
  {
    if force || texture !in ts then ts + [texture] else ts
  }

  /** A second, different texture is dropped by the code as written,
      while the documented behaviour appends it. */
  lemma AddTextureDropsNewTexture(a: Texture, b: Texture)
    requires a != b
    ensures AddedAsWritten([a], b, false) == [a]
    ensures b !in AddedAsWritten([a], b, false)
    ensures AddedAsDocumented([a], b, false) == [a, b]
  {
  }

  /** The documented behaviour never duplicates an entry unless forced, and
      keeps every entry it had. */
  lemma AddedAsDocumentedKeepsUnique(ts: seq<Texture>, texture: Texture)
    requires forall i, j :: 0 <= i < j < |ts| ==> ts[i] != ts[j]
    ensures var r := AddedAsDocumented(ts, texture, false);
      (forall i, j :: 0 <= i < j < |r| ==> r[i] != r[j]) &&
      texture in r && r[..|ts|] == ts
  {
  }

  /** On an empty list, as in a freshly created material, both behaviours agree. */
  lemma AddToEmptyAgrees(texture: Texture, force: bool)
    ensures AddedAsWritten([], texture, force) == AddedAsDocumented([], texture, force) == [texture]
  {
  }

  class Material {
    var name: string
    var fileName: string
    var shader: Shader?
    var textures: seq<Texture>

    constructor ()
      ensures name == "Default" && fileName == "#built-in" && shader == null && textures == []
    {
      name := "Default";
      fileName := "#built-in";
      shader := null;
      textures := [];
    }

    function GetName(): string
      reads this
    {
      name
    }

    method SetName(newName: string)
      modifies this
      ensures GetName() == newName
      ensures fileName == old(fileName) && shader == old(shader) && textures == old(textures)
    {
      name := newName;
    }

    function GetShader(): Shader?
      reads this
    {
      shader
    }

    method SetShader(newShader: Shader?)
      modifies this
      ensures GetShader() == newShader
      ensures name == old(name) && fileName == old(fileName) && textures == old(textures)
    {
      shader := newShader;
    }

    /** Material::GetTexture: counts the textures of the requested type in
        list order and returns the one whose count equals `order`. */
    method GetTexture(textureType: TextureType, order: int) returns (r: Texture?)
      ensures NthOfType(TypesOf(textures), textureType, order).None? ==> r == null
      ensures NthOfType(TypesOf(textures), textureType, order).Some? ==>
        r == textures[NthOfType(TypesOf(textures), textureType, order).value]
    {
      ghost var types := TypesOf(textures);
      var number := 0;
      var i := 0;
      while i < |textures|
        invariant i <= |textures| == |types|
        invariant NthOfType(types, textureType, order) == NthFrom(types, textureType, order - number, i)
      {
        var texture := textures[i];
        assert texture.GetTextureType() == types[i];
        if texture.GetTextureType() == textureType {
          if number == order {
            return texture;
          }
          number := number + 1;
        }
        i := i + 1;
      }
      return null;
    }

    /** Material::AddTexture as written (see AddedAsWritten). */
    method AddTexture(texture: Texture, force: bool)
      modifies this
      ensures textures == AddedAsWritten(old(textures), texture, force)
      ensures name == old(name) && fileName == old(fileName) && shader == old(shader)
    {
      var i := 0;
      while i < |textures|
        invariant i <= |textures|
        invariant i > 0 ==> force
      {
        var existing := textures[i];
        if existing == existing && !force {
          return;
        }
        i := i + 1;
      }
      textures := textures + [texture];
    }

    /** AddTexture with the comparison against the parameter that the
        documentation describes (see AddedAsDocumented). */
    method AddTextureUnique(texture: Texture, force: bool)
      modifies this
      ensures textures == AddedAsDocumented(old(textures), texture, force)
      ensures name == old(name) && fileName == old(fileName) && shader == old(shader)
    {
      var i := 0;
      while i < |textures|
        invariant i <= |textures|
        invariant !force ==> texture !in textures[..i]
      {
        var existing := textures[i];
        if existing == texture && !force {
          return;
        }
        i := i + 1;
      }
      assert textures[..i] == textures;
      textures := textures + [texture];
    }
  }
}
