/** The built-in Wavefront OBJ reader (Model.cpp without Assimp) and the
    model that owns the mesh it produces.

    The file is a character sequence read the way `std::ifstream` reads
    it (module TextStream). Floating-point numbers are whole white-space
    delimited words whose value a `FloatReader` supplies; integer corner
    indices are read character by character as `int` extraction reads
    them. Where the source's behaviour is undefined (a corner that does
    not hold three integers, or an index outside its list) the parse
    reports failure. */
module ObjModel {
  import opened Options
  import opened RenderTypes
  import opened TextStream
  import opened Geometry

  /** The value `stream >> float` gives for a word, None when the
      extraction fails on it. */
  type FloatReader = string -> Option<real>

  /** The parser's five member vectors: `v`, `vn` and `vt` entries, the
      vertices built from face corners (with the corner text they came
      from) and the faces as three vertex indices. */
  datatype ObjLists = ObjLists(
    positions: seq<Vec3>,
    normals: seq<Vec3>,
    texCoords: seq<Vec2>,
    vertices: seq<(string, DrawVertex)>,
    triangles: seq<seq<VertexId>>)

  const NoLists: ObjLists := ObjLists([], [], [], [], [])

  // ---------------------------------------------------------------------
  // Number extraction

  /** `stream >> f` for a float, read word by word: the next
      whitespace-separated word and the value `toFloat` gives it, or a
      failed read (no word left, or a word that is not a number). The
      stream's own extraction stops at the end of the numeric prefix
      instead ("1.5abc" gives 1.5 and leaves "abc" for the next read). */
  function ReadFloat(s: string, p: nat, toFloat: FloatReader): (r: (Option<real>, nat))
    requires p <= |s|
    ensures p <= r.1 <= |s|
  {
    match ReadWord(s, p)
    case NoWord => (None, |s|)
    case Word(w, next) => (toFloat(w), next)
  }

  /** `stream >> a >> b ...` for `count` floats: the values, the position
      after them and whether the stream is still good. The first failed
      read stores 0.0; the reads after it do nothing on the failed stream
      and leave their elements indeterminate, which the model also gives
      as 0.0. */
  function ReadFloats(s: string, p: nat, toFloat: FloatReader, count: nat): (r: (seq<real>, nat, bool))
    requires p <= |s|
    ensures |r.0| == count && p <= r.1 <= |s|
    decreases count
  {
    if count == 0 then ([], p, true)
    else
      var first := ReadFloat(s, p, toFloat);
      if first.0.None? then (seq(count, _ => 0.0), first.1, false)
      else
        var rest := ReadFloats(s, first.1, toFloat, count - 1);
        ([first.0.value] + rest.0, rest.1, rest.2)
  }

  predicate IsDigit(c: char)
  {
    '0' <= c <= '9'
  }

  /** First position at or after `i` that is not a decimal digit. */
  function DigitsEnd(s: string, i: nat): (j: nat)
    requires i <= |s|
    ensures i <= j <= |s|
    ensures forall k :: i <= k < j ==> IsDigit(s[k])
    ensures j < |s| ==> !IsDigit(s[j])
    decreases |s| - i
  {
    if i == |s| || !IsDigit(s[i]) then i else DigitsEnd(s, i + 1)
  }

  /** The value of a run of decimal digits. */
  function DigitsValue(d: string): nat
  {
    if d == [] then 0
    else
      var c := d[|d| - 1];
      10 * DigitsValue(d[..|d| - 1]) + (if IsDigit(c) then c as int - '0' as int else 0)
  }

  /** `stream >> n` for an `int` from position `p`: white space skipped, an
      optional sign, then the longest run of decimal digits; None when no
      digit follows. */
  function ReadInt(s: string, p: nat): (r: Option<(int, nat)>)
    requires p <= |s|
    ensures r.Some? ==> p < r.value.1 <= |s|
    ensures r.Some? ==> r.value.1 == |s| || !IsDigit(s[r.value.1])
  {
    var a := SkipSpaces(s, p);
    var b := if a < |s| && (s[a] == '+' || s[a] == '-') then a + 1 else a;
    var e := DigitsEnd(s, b);
    var value: int := if b > a && s[a] == '-' then -(DigitsValue(s[b..e]) as int) else DigitsValue(s[b..e]);
    if e == b then None else Some((value, e))
  }

  /** A word of digits reads as its decimal value and is consumed whole. */
  lemma ReadIntOfDigits(d: string)
    requires |d| > 0 && forall k :: 0 <= k < |d| ==> IsDigit(d[k])
    ensures ReadInt(d, 0) == Some((DigitsValue(d), |d|))
  {
    assert !IsSpace(d[0]);
    assert SkipSpaces(d, 0) == 0;
    assert DigitsEnd(d, 0) == |d|;
    assert d[0..|d|] == d;
  }

  /** The three integers of a corner after its slashes became spaces:
      position, texture coordinate and normal numbers, 1-based. */
  function CornerIndices(w: string): Option<(int, int, int)>
  {
    match ReadInt(w, 0)
    case None => None
    case Some(a) =>
      match ReadInt(w, a.1)
      case None => None
      case Some(b) =>
        match ReadInt(w, b.1)
        case None => None
        case Some(c) => Some((a.0, b.0, c.0))
  }

  /** The corner token with every '/' replaced by a space. */
  function Unslashed(w: string): string
  {
    seq(|w|, k requires 0 <= k < |w| => if w[k] == '/' then ' ' else w[k])
  }

  /** The in-place loop of ParseOBJTriangle that blanks the slashes. */
  method ReplaceSlashes(token: string) returns (r: string)
    ensures r == Unslashed(token)
  {
    r := token;
    var i := 0;
    while i < |r|
      invariant i <= |r| == |token|
      invariant forall k :: 0 <= k < i ==> r[k] == (if token[k] == '/' then ' ' else token[k])
      invariant forall k :: i <= k < |r| ==> r[k] == token[k]
    {
      if r[i] == '/' {
        r := r[i := ' '];
      }
      i := i + 1;
    }
  }

  /** Blanking leaves no slash, keeps the length and every other character,
      and doing it twice changes nothing more. */
  lemma UnslashedMeaning(w: string)
    ensures |Unslashed(w)| == |w|
    ensures forall k :: 0 <= k < |w| ==> Unslashed(w)[k] != '/'
    ensures forall k :: 0 <= k < |w| && w[k] != '/' ==> Unslashed(w)[k] == w[k]
    ensures Unslashed(Unslashed(w)) == Unslashed(w)
  {
  }

  // ---------------------------------------------------------------------
  // One corner, one face, one token

  /** The vertex a corner names: the 1-based numbers made 0-based, each
      checked against its list; normals scaled by 127 and texture
      coordinates by 32767 for the packed integer fields. */
  function CornerVertex(lists: ObjLists, corner: (int, int, int)): Option<DrawVertex>
  {
    var p := corner.0 - 1;
    var t := corner.1 - 1;
    var n := corner.2 - 1;
    if 0 <= p < |lists.positions| && 0 <= t < |lists.texCoords| && 0 <= n < |lists.normals| then
      var pos := lists.positions[p];
      var nrm := lists.normals[n];
      var tc := lists.texCoords[t];
      Some(DrawVertex(
        pos,
        Vec4(nrm.x * 127.0, nrm.y * 127.0, nrm.z * 127.0, Unset.w),
        Unset,
        Vec2(tc.x * 32767.0, tc.y * 32767.0),
        Unset,
        Unset))
    else None
  }

  /** ParseOBJVertex on an already blanked corner: a new vertex appended
      with the corner text; None where the source is undefined. */
  function AddCorner(lists: ObjLists, w: string): Option<ObjLists>
  {
    match CornerIndices(w)
    case None => None
    case Some(c) =>
      match CornerVertex(lists, c)
      case None => None
      case Some(v) => Some(lists.(vertices := lists.vertices + [(w, v)]))
  }

  /** Reads the face corners from `p` once `k` of them are done, `tri`
      holding the indices returned so far: the lists, the three indices
      and the position after the corners, or None when undefined. */
  function CornersFrom(s: string, p: nat, lists: ObjLists, k: nat, tri: seq<VertexId>): (r: Option<(ObjLists, seq<VertexId>, nat)>)
    requires p <= |s| && k <= 3
    ensures r.Some? ==> p <= r.value.2 <= |s|
    decreases 3 - k
  {
    if k == 3 then Some((lists, tri, p))
    else
      match ReadWord(s, p)
      case NoWord => None
      case Word(w, q) =>
        match AddCorner(lists, Unslashed(w))
        case None => None
        case Some(l) => CornersFrom(s, q, l, k + 1, tri + [ToU32(|l.vertices| - 1)])
  }

  /** What the token loop does after reading one token. */
  datatype Step =
    | Continue(pos: nat, lists: ObjLists)  // go on reading at `pos`
    | Stop(lists: ObjLists)                // the stream failed: the loop ends
    | Undefined                            // the source's behaviour is undefined

  function TokenStep(s: string, toFloat: FloatReader, token: string, next: nat, lists: ObjLists): (r: Step)
    requires next <= |s| && |token| > 0
    ensures r.Continue? ==> next <= r.pos <= |s|
  {
    if token[0] == '#' then Continue(GetLine(s, next).1, lists)
    else if token == "v" then
      var r := ReadFloats(s, next, toFloat, 3);
      var l := lists.(positions := lists.positions + [Vec3(r.0[0], r.0[1], r.0[2])]);
      if r.2 then Continue(r.1, l) else Stop(l)
    else if token == "vn" then
      var r := ReadFloats(s, next, toFloat, 3);
      var l := lists.(normals := lists.normals + [Vec3(r.0[0], r.0[1], r.0[2])]);
      if r.2 then Continue(r.1, l) else Stop(l)
    else if token == "vt" then
      var r := ReadFloats(s, next, toFloat, 2);
      var l := lists.(texCoords := lists.texCoords + [Vec2(r.0[0], 1.0 - r.0[1])]);
      if r.2 then Continue(r.1, l) else Stop(l)
    else if token == "f" then
      match CornersFrom(s, next, lists, 0, [])
      case None => Undefined
      case Some(c) => Continue(c.2, c.0.(triangles := c.0.triangles + [c.1]))
    else Continue(GetLine(s, next).1, lists)
  }

  /** The token loop of ParseOBJ from position `p`: the final lists, or None
      when the source's behaviour is undefined. */
  function Scan(s: string, toFloat: FloatReader, p: nat, lists: ObjLists): Option<ObjLists>
    requires p <= |s|
    decreases |s| - p
  {
    match ReadWord(s, p)
    case NoWord => Some(lists)
    case Word(token, next) =>
      match TokenStep(s, toFloat, token, next, lists)
      case Continue(q, l) => Scan(s, toFloat, q, l)
      case Stop(l) => Some(l)
      case Undefined => None
  }

  // ---------------------------------------------------------------------
  // What the steps do

  /** A comment and any unrecognised token discard the rest of the line
      and change no list. */
  lemma SkippedTokensDiscardLine(s: string, toFloat: FloatReader, token: string, next: nat, lists: ObjLists)
    requires next <= |s| && |token| > 0
    requires token[0] == '#' || token !in ["v", "vn", "vt", "f"]
    ensures TokenStep(s, toFloat, token, next, lists) == Continue(GetLine(s, next).1, lists)
  {
  }

  /** `v`, `vn` and `vt` each append exactly one entry to their own list and
      leave the other four alone; the loop goes on exactly when all their
      numbers were read. */
  lemma VertexDataAppendsOne(s: string, toFloat: FloatReader, token: string, next: nat, lists: ObjLists)
    requires next <= |s| && token in ["v", "vn", "vt"]
    ensures var r := TokenStep(s, toFloat, token, next, lists);
      !r.Undefined? &&
      r.lists.vertices == lists.vertices && r.lists.triangles == lists.triangles &&
      (token == "v" ==>
         r.lists.positions[..|lists.positions|] == lists.positions &&
         |r.lists.positions| == |lists.positions| + 1 &&
         r.lists.normals == lists.normals && r.lists.texCoords == lists.texCoords) &&
      (token == "vn" ==>
         r.lists.normals[..|lists.normals|] == lists.normals &&
         |r.lists.normals| == |lists.normals| + 1 &&
         r.lists.positions == lists.positions && r.lists.texCoords == lists.texCoords) &&
      (token == "vt" ==>
         r.lists.texCoords[..|lists.texCoords|] == lists.texCoords &&
         |r.lists.texCoords| == |lists.texCoords| + 1 &&
         r.lists.positions == lists.positions && r.lists.normals == lists.normals) &&
      (r.Continue? <==> ReadFloats(s, next, toFloat, if token == "vt" then 2 else 3).2)
  {
    assert token[0] != '#';
  }

  /** A corner appends exactly one vertex, at the end, and nothing else. */
  lemma AddCornerAppends(lists: ObjLists, w: string)
    ensures var r := AddCorner(lists, w);
      r.Some? ==>
        r.value.vertices[..|lists.vertices|] == lists.vertices &&
        |r.value.vertices| == |lists.vertices| + 1 &&
        r.value.vertices[|lists.vertices|].0 == w &&
        r.value.positions == lists.positions && r.value.normals == lists.normals &&
        r.value.texCoords == lists.texCoords && r.value.triangles == lists.triangles
  {
  }

  /** One corner of a face: either the face is undefined from here, or
      the corner appended one vertex and the face goes on from `q` with
      the lists `l`. */
  lemma CornerStep(s: string, p: nat, lists: ObjLists, k: nat, tri: seq<VertexId>) returns (ok: bool, l: ObjLists, q: nat)
    requires p <= |s| && k < 3
    ensures !ok ==> CornersFrom(s, p, lists, k, tri).None?
    ensures ok ==>
      q <= |s| &&
      CornersFrom(s, p, lists, k, tri) == CornersFrom(s, q, l, k + 1, tri + [ToU32(|lists.vertices|)]) &&
      |l.vertices| == |lists.vertices| + 1 && l.triangles == lists.triangles &&
      l.positions == lists.positions && l.normals == lists.normals && l.texCoords == lists.texCoords &&
      l.vertices[..|lists.vertices|] == lists.vertices
  {
    var read := ReadWord(s, p);
    ok := false;
    l := lists;
    q := p;
    if read.Word? {
      var c := AddCorner(lists, Unslashed(read.word));
      if c.Some? {
        ok := true;
        l := c.value;
        q := read.next;
        assert l.vertices[..|lists.vertices|] == lists.vertices;
      }
    }
  }

  /** The corners of a face leave the `v`, `vn` and `vt` lists alone and
      keep every vertex that was there before. */
  lemma {:induction false} CornersKeepData(s: string, p: nat, lists: ObjLists, k: nat, tri: seq<VertexId>)
    requires p <= |s| && k <= 3
    ensures var r := CornersFrom(s, p, lists, k, tri);
      r.Some? ==>
        r.value.0.positions == lists.positions && r.value.0.normals == lists.normals &&
        r.value.0.texCoords == lists.texCoords &&
        |lists.vertices| <= |r.value.0.vertices| &&
        r.value.0.vertices[..|lists.vertices|] == lists.vertices
    decreases 3 - k
  {
    if k < 3 {
      var ok, l, q := CornerStep(s, p, lists, k, tri);
      if ok {
        CornersKeepData(s, q, l, k + 1, tri + [ToU32(|lists.vertices|)]);
        var r := CornersFrom(s, p, lists, k, tri);
        if r.Some? {
          assert r.value.0.vertices[..|l.vertices|][..|lists.vertices|] == r.value.0.vertices[..|lists.vertices|];
        }
      }
    }
  }

  /** The vertex list holds three vertices per face and face k is
      (3k, 3k+1, 3k+2): corners are numbered in the order they are read. */
  predicate FaceLayout(l: ObjLists)
  {
    |l.vertices| == 3 * |l.triangles| &&
    forall k :: 0 <= k < |l.triangles| ==> l.triangles[k] == [ToU32(3 * k), ToU32(3 * k + 1), ToU32(3 * k + 2)]
  }

  /** Part way through a face: the faces so far are laid out, `k` corners
      of the next face were read and `tri` holds their indices. */
  predicate PartialFace(l: ObjLists, k: nat, tri: seq<VertexId>)
  {
    var n := |l.triangles|;
    k <= 3 && |tri| == k && |l.vertices| == 3 * n + k &&
    (forall j :: 0 <= j < n ==> l.triangles[j] == [ToU32(3 * j), ToU32(3 * j + 1), ToU32(3 * j + 2)]) &&
    (forall j :: 0 <= j < k ==> tri[j] == ToU32(3 * n + j))
  }

  /** One more corner read keeps a face part way through. */
  lemma PartialFaceStep(lists: ObjLists, l: ObjLists, k: nat, tri: seq<VertexId>)
    requires PartialFace(lists, k, tri) && k < 3
    requires |l.vertices| == |lists.vertices| + 1 && l.triangles == lists.triangles
    ensures PartialFace(l, k + 1, tri + [ToU32(|lists.vertices|)])
  {
  }

  /** The remaining corners of a face complete the layout. */
  lemma {:induction false} CornersKeepLayout(s: string, p: nat, lists: ObjLists, k: nat, tri: seq<VertexId>)
    requires p <= |s| && PartialFace(lists, k, tri)
    ensures var c := CornersFrom(s, p, lists, k, tri);
      c.Some? ==> FaceLayout(c.value.0.(triangles := c.value.0.triangles + [c.value.1]))
    decreases 3 - k
  {
    var n := |lists.triangles|;
    if k == 3 {
      var tris := lists.triangles + [tri];
      assert tris[n] == [ToU32(3 * n), ToU32(3 * n + 1), ToU32(3 * n + 2)];
    } else {
      var ok, l, q := CornerStep(s, p, lists, k, tri);
      if ok {
        var tri' := tri + [ToU32(|lists.vertices|)];
        PartialFaceStep(lists, l, k, tri);
        CornersKeepLayout(s, q, l, k + 1, tri');
      }
    }
  }

  /** A face read at the end of a well laid out list keeps the layout: its
      three corners are the next three vertices, numbered in reading order. */
  lemma FaceKeepsLayout(s: string, next: nat, lists: ObjLists)
    requires next <= |s| && FaceLayout(lists)
    ensures var c := CornersFrom(s, next, lists, 0, []);
      c.Some? ==> FaceLayout(c.value.0.(triangles := c.value.0.triangles + [c.value.1]))
  {
    CornersKeepLayout(s, next, lists, 0, []);
  }

  lemma TokenStepKeepsLayout(s: string, toFloat: FloatReader, token: string, next: nat, lists: ObjLists)
    requires next <= |s| && |token| > 0
    requires FaceLayout(lists)
    ensures var r := TokenStep(s, toFloat, token, next, lists);
      !r.Undefined? ==> FaceLayout(r.lists)
  {
    if token[0] != '#' && token == "f" {
      FaceKeepsLayout(s, next, lists);
    }
  }

  /** Every parse that is defined ends with the face layout it started with. */
  lemma {:induction false} ScanKeepsLayout(s: string, toFloat: FloatReader, p: nat, lists: ObjLists)
    requires p <= |s| && FaceLayout(lists)
    ensures Scan(s, toFloat, p, lists).Some? ==> FaceLayout(Scan(s, toFloat, p, lists).value)
    decreases |s| - p
  {
    match ReadWord(s, p)
    case NoWord =>
    case Word(token, next) =>
      TokenStepKeepsLayout(s, toFloat, token, next, lists);
      match TokenStep(s, toFloat, token, next, lists)
      case Continue(q, l) => ScanKeepsLayout(s, toFloat, q, l);
      case Stop(l) =>
      case Undefined =>
  }

  // ---------------------------------------------------------------------
  // The mesh

  /** The mesh's vertices: the parsed vertices without their corner text. */
  function MeshVertices(vs: seq<(string, DrawVertex)>): (r: seq<DrawVertex>)
    ensures |r| == |vs|
    ensures forall k :: 0 <= k < |vs| ==> r[k] == vs[k].1
  {
    if vs == [] then [] else MeshVertices(vs[..|vs| - 1]) + [vs[|vs| - 1].1]
  }

  /** The faces' indices one after the other. */
  function FlattenTriangles(tris: seq<seq<VertexId>>): seq<VertexId>
  {
    if tris == [] then [] else FlattenTriangles(tris[..|tris| - 1]) + tris[|tris| - 1]
  }

  lemma IndexRangeStep(n: nat)
    ensures IndexRange(n + 3) == IndexRange(n) + [ToU32(n), ToU32(n + 1), ToU32(n + 2)]
  {
    assert IndexRange(n + 3) == IndexRange(n + 2) + [ToU32(n + 2)];
    assert IndexRange(n + 2) == IndexRange(n + 1) + [ToU32(n + 1)];
  }

  /** Under the face layout the surface's index list is 0, 1, ..., 3F - 1. */
  lemma {:induction false} FlattenedLayout(tris: seq<seq<VertexId>>)
    requires forall k :: 0 <= k < |tris| ==> tris[k] == [ToU32(3 * k), ToU32(3 * k + 1), ToU32(3 * k + 2)]
    ensures FlattenTriangles(tris) == IndexRange(3 * |tris|)
  {
    if tris != [] {
      var n := |tris| - 1;
      var prefix := tris[..n];
      assert forall k :: 0 <= k < |prefix| ==> prefix[k] == tris[k];
      FlattenedLayout(prefix);
      assert FlattenTriangles(tris) == FlattenTriangles(prefix) + tris[n];
      assert tris[n] == [ToU32(3 * n), ToU32(3 * n + 1), ToU32(3 * n + 2)];
      IndexRangeStep(3 * n);
      assert 3 * |tris| == 3 * n + 3;
    }
  }

  /** The mesh ParseOBJ returns for a successful parse of `s`: its
      vertices in creation order, three per face, no triangles, and a
      single default-material surface whose indices are 0, 1, ..., 3F - 1
      (F the number of faces), empty when there are no faces. */
  lemma ParsedMeshLayout(s: string, toFloat: FloatReader)
    ensures var r := Scan(s, toFloat, 0, NoLists);
      r.Some? ==>
        |MeshVertices(r.value.vertices)| == 3 * |r.value.triangles| &&
        FlattenTriangles(r.value.triangles) == IndexRange(3 * |r.value.triangles|)
  {
    ScanKeepsLayout(s, toFloat, 0, NoLists);
    var r := Scan(s, toFloat, 0, NoLists);
    if r.Some? {
      FlattenedLayout(r.value.triangles);
    }
  }

  /** Under the face layout the corrected fill leaves the parsed surface as
      it is: it has indices whenever there is a face, and when there is none
      there is no vertex to index either. */
  lemma LayoutFillKeepsSurface(l: ObjLists)
    requires FaceLayout(l)
    ensures var surf := DefaultSurface().(vertexIndices := FlattenTriangles(l.triangles));
      SurfaceAdded([], |l.vertices|, surf) == surf
  {
    if l.triangles != [] {
      assert |l.triangles[|l.triangles| - 1]| == 3;
    }
  }

  /** OBJParser: the five member vectors, filled by one ParseOBJ call. */
  class OBJParser {
    var positions: seq<Vec3>
    var normals: seq<Vec3>
    var texCoords: seq<Vec2>
    var vertices: seq<(string, DrawVertex)>
    var triangles: seq<seq<VertexId>>

    constructor ()
      ensures Lists() == NoLists
    {
      positions := [];
      normals := [];
      texCoords := [];
      vertices := [];
      triangles := [];
    }

    function Lists(): ObjLists
      reads this
    {
      ObjLists(positions, normals, texCoords, vertices, triangles)
    }

    /** ParseOBJVertex: reads the three 1-based numbers of a blanked corner,
        looks up position, texture coordinate and normal, appends the new
        vertex and returns its index. */
    method ParseOBJVertex(token: string) returns (index: Option<VertexId>)
      modifies this
      ensures var r := AddCorner(old(Lists()), token);
        (index.None? <==> r.None?) &&
        (r.Some? ==> Lists() == r.value && index == Some(ToU32(|vertices| - 1)))
    {
      var corner := CornerIndices(token);
      if corner.None? {
        return None;
      }
      var p := corner.value.0 - 1;
      var t := corner.value.1 - 1;
      var n := corner.value.2 - 1;
      if !(0 <= p < |positions| && 0 <= t < |texCoords| && 0 <= n < |normals|) {
        assert CornerVertex(Lists(), corner.value).None?;
        return None;
      }
      var pos := positions[p];
      var texCoord := texCoords[t];
      var normal := normals[n];
      var vertex := DrawVertex(
        pos,
        Vec4(normal.x * 127.0, normal.y * 127.0, normal.z * 127.0, Unset.w),
        Unset,
        Vec2(texCoord.x * 32767.0, texCoord.y * 32767.0),
        Unset,
        Unset);
      assert CornerVertex(Lists(), corner.value) == Some(vertex);
      vertices := vertices + [(token, vertex)];
      return Some(ToU32(|vertices| - 1));
    }

    /** One corner of ParseOBJTriangle: the next token, blanked and turned
        into a vertex. A failed read leaves the token empty, and the corner
        undefined. */
    method ParseCorner(s: string, p: nat, ghost k: nat, ghost tri: seq<VertexId>) returns (index: Option<VertexId>, q: nat)
      requires p <= |s| && k < 3
      modifies this
      ensures q <= |s|
      ensures index.None? ==> CornersFrom(s, p, old(Lists()), k, tri).None?
      ensures index.Some? ==>
        CornersFrom(s, p, old(Lists()), k, tri) == CornersFrom(s, q, Lists(), k + 1, tri + [index.value])
    {
      var token := "";
      q := p;
      var read := ReadWord(s, p);
      if read.Word? {
        token := read.word;
        q := read.next;
      }
      token := ReplaceSlashes(token);
      index := ParseOBJVertex(token);
      if read.NoWord? {
        assert CornerIndices(token).None?;
      }
    }

    /** ParseOBJTriangle: three corner tokens from the stream, each blanked
        and turned into a vertex. */
    method ParseOBJTriangle(s: string, p: nat) returns (triangle: Option<seq<VertexId>>, next: nat)
      requires p <= |s|
      modifies this
      ensures var r := CornersFrom(s, p, old(Lists()), 0, []);
        (triangle.None? <==> r.None?) &&
        (r.Some? ==> Lists() == r.value.0 && triangle == Some(r.value.1) && next == r.value.2)
    {
      var tri: seq<VertexId> := [];
      next := p;
      var i := 0;
      while i < 3
        invariant i <= 3 && next <= |s|
        invariant CornersFrom(s, next, Lists(), i, tri) == CornersFrom(s, p, old(Lists()), 0, [])
      {
        var index;
        index, next := ParseCorner(s, next, i, tri);
        if index.None? {
          return None, next;
        }
        tri := tri + [index.value];
        i := i + 1;
      }
      return Some(tri), next;
    }

    /** One pass of ParseOBJ's token loop after `token` was read: what it
        does to the lists and where reading goes on. */
    method ParseToken(s: string, toFloat: FloatReader, token: string, next: nat) returns (q: nat, stop: bool, undefined: bool)
      requires next <= |s| && |token| > 0
      modifies this
      ensures var st := TokenStep(s, toFloat, token, next, old(Lists()));
        (undefined <==> st.Undefined?) &&
        (!undefined ==> Lists() == st.lists) &&
        (st.Continue? <==> !stop && !undefined) &&
        (st.Continue? ==> q == st.pos)
    {
      q, stop, undefined := next, false, false;
      if token[0] == '#' {
        q := GetLine(s, next).1;
      } else if token == "v" {
        var r := ReadFloats(s, next, toFloat, 3);
        positions := positions + [Vec3(r.0[0], r.0[1], r.0[2])];
        q, stop := r.1, !r.2;
      } else if token == "vn" {
        var r := ReadFloats(s, next, toFloat, 3);
        normals := normals + [Vec3(r.0[0], r.0[1], r.0[2])];
        q, stop := r.1, !r.2;
      } else if token == "vt" {
        var r := ReadFloats(s, next, toFloat, 2);
        texCoords := texCoords + [Vec2(r.0[0], 1.0 - r.0[1])];
        q, stop := r.1, !r.2;
      } else if token == "f" {
        var triangle, after := ParseOBJTriangle(s, next);
        if triangle.None? {
          undefined := true;
        } else {
          triangles := triangles + [triangle.value];
          q := after;
        }
      } else {
        q := GetLine(s, next).1;
      }
    }

    /** ParseOBJ: the token loop, then the mesh built from the vertices and
        one default surface holding every face's indices. */
    method ParseOBJ(s: string, toFloat: FloatReader) returns (mesh: DrawMesh?)
      modifies this
      ensures var r := Scan(s, toFloat, 0, old(Lists()));
        (mesh == null <==> r.None?) &&
        (mesh != null ==>
          fresh(mesh) && Lists() == r.value &&
          mesh.vertices == MeshVertices(r.value.vertices) &&
          mesh.triangles == [] &&
          mesh.surfaces == [DefaultSurface().(vertexIndices := FlattenTriangles(r.value.triangles))])
    {
      ghost var result := Scan(s, toFloat, 0, Lists());
      var p := 0;
      while true
        invariant p <= |s|
        invariant Scan(s, toFloat, p, Lists()) == result
        decreases |s| - p
      {
        var read := ReadWord(s, p);
        if read.NoWord? {
          break;
        }
        var q, stop, undefined := ParseToken(s, toFloat, read.word, read.next);
        if undefined {
          return null;
        }
        if stop {
          break;
        }
        p := q;
      }
      assert result == Some(Lists());
      mesh := BuildMesh();
    }

    /** Fills a fresh mesh: every vertex, then one default surface with all
        face indices, added with DrawMesh::AddSurface as written. The mesh
        has no triangles, so a surface without indices is filled with no
        indices either: the surface is stored unchanged. The corrected fill
        stores it unchanged too (LayoutFillKeepsSurface). */
    method BuildMesh() returns (mesh: DrawMesh)
      ensures fresh(mesh)
      ensures mesh.vertices == MeshVertices(vertices) && mesh.triangles == []
      ensures mesh.surfaces == [DefaultSurface().(vertexIndices := FlattenTriangles(triangles))]
    {
      mesh := new DrawMesh();
      var i := 0;
      while i < |vertices|
        invariant i <= |vertices|
        invariant mesh.vertices == MeshVertices(vertices[..i])
        invariant mesh.surfaces == [] && mesh.triangles == []
        modifies mesh
      {
        assert vertices[..i + 1][..i] == vertices[..i];
        mesh.AddVertex(vertices[i].1);
        i := i + 1;
      }
      assert vertices[..i] == vertices;
      var surf := DefaultSurface();
      var k := 0;
      while k < |triangles|
        invariant k <= |triangles|
        invariant surf == DefaultSurface().(vertexIndices := FlattenTriangles(triangles[..k]))
      {
        assert triangles[..k + 1][..k] == triangles[..k];
        surf := surf.(vertexIndices := surf.vertexIndices + triangles[k]);
        k := k + 1;
      }
      assert triangles[..k] == triangles;
      assert IndexRange(0) == [];
      var stored := mesh.AddSurface(surf);
    }
  }

  /** What opening the model file gives: no file, a stream in a bad state,
      or the file's text. */
  datatype ModelFile = Missing | Bad | Contents(text: string)

  /** Model: a name, whether it loaded, and its mesh. */
  class Model {
    var name: string
    var okay: bool
    var mesh: DrawMesh

    constructor ()
      ensures name == "" && !okay
      ensures fresh(mesh) && mesh.vertices == [] && mesh.triangles == [] && mesh.surfaces == []
    {
      name := "";
      okay := false;
      mesh := new DrawMesh();
    }

    function Okay(): bool
      reads this
    {
      okay
    }

    /** Model::LoadFromPath: the name is always the path; a missing or bad
        file leaves the model not okay, otherwise the parsed mesh replaces
        the old one. */
    method LoadFromPath(path: string, file: ModelFile, toFloat: FloatReader)
      modifies this
      ensures name == path
      ensures !file.Contents? ==> !okay && mesh == old(mesh)
      ensures file.Contents? ==> (okay <==> Scan(file.text, toFloat, 0, NoLists).Some?)
      ensures !okay ==> mesh == old(mesh)
      ensures okay ==>
        file.Contents? && fresh(mesh) &&
        mesh.vertices == MeshVertices(Scan(file.text, toFloat, 0, NoLists).value.vertices) &&
        mesh.triangles == [] &&
        mesh.surfaces == [DefaultSurface().(vertexIndices := FlattenTriangles(Scan(file.text, toFloat, 0, NoLists).value.triangles))]
    {
      name := path;
      if !file.Contents? {
        okay := false;
        return;
      }
      var parser := new OBJParser();
      var parsed := parser.ParseOBJ(file.text, toFloat);
      if parsed == null {
        okay := false;
        return;
      }
      mesh := parsed;
      okay := true;
    }
  }
}
