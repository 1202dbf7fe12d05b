/** The render frontend (RenderWorld.hpp/.cpp): a fixed array of entity
    slots whose indices are the entity handles, append-only registries of
    models, textures and materials de-duplicated by name, and the frame
    loop that draws every active slot's surfaces through the backend and
    frees the immediate (temporary) entities it has drawn. */
module RenderWorlds {
  import opened Options
  import opened RenderTypes
  import opened Geometry
  import opened Materials
  import opened Textures
  import TF = TextureFlags
  import OM = ObjModel
  import opened Renderers
  import opened Shaders
  import VB = VertexBuffers

  /** The size of the `entities` array. */
  const EntityCount: nat := 16384

  /** RenderEntitySlot: the entity's parameters and the two flags. */
  datatype Slot = Slot(params: RenderEntityParams, active: bool, temporary: bool)

  /** The parameters a never-used slot holds. RenderEntityParams.hpp is not
      part of this model; its defaults are taken to be zeros. */
  const BlankParams: RenderEntityParams := RenderEntityParams(0, Vec3(0.0, 0.0, 0.0), [])

  /** A value-initialised slot: inactive and not temporary. */
  const FreeSlot: Slot := Slot(BlankParams, false, false)

  /** Only active slots are ever temporary. */
  predicate SlotsWellFormed(slots: seq<Slot>)
  {
    forall j :: 0 <= j < |slots| ==> (slots[j].temporary ==> slots[j].active)
  }

  /** The lowest-indexed inactive slot, if any. */
  function FirstInactive(slots: seq<Slot>): (r: Option<nat>)
    ensures r.Some? ==> r.value < |slots| && !slots[r.value].active
    ensures r.Some? ==> forall j :: 0 <= j < r.value ==> slots[j].active
    ensures r.None? <==> forall j :: 0 <= j < |slots| ==> slots[j].active
  {
    if slots == [] then None
    else if !slots[0].active then Some(0)
    else match FirstInactive(slots[1..])
      case None => None
      case Some(k) => Some(k + 1)
  }

  /** The slot CreateEntity writes: new parameters, active, the temporary
      flag left as it was. */
  function Claimed(s: Slot, params: RenderEntityParams): Slot
  {
    s.(params := params, active := true)
  }

  /** The slot DestroyEntity leaves: neither active nor temporary, the
      parameters left as they were. */
  function Destroyed(s: Slot): Slot
  {
    s.(active := false, temporary := false)
  }

  /** Whether UpdateEntity accepts a handle: a slot index whose slot is
      active and not temporary. */
  predicate Updatable(slots: seq<Slot>, handle: Handle)
  {
    handle != RenderHandleInvalid && (handle as int) < |slots| &&
    slots[handle].active && !slots[handle].temporary
  }

  /** Destroying twice is destroying once, and a destroyed slot cannot be
      updated. */
  lemma DestroyIdempotent(slots: seq<Slot>, h: Handle)
    requires (h as int) < |slots|
    ensures Destroyed(Destroyed(slots[h])) == Destroyed(slots[h])
    ensures !Updatable(slots[h := Destroyed(slots[h])], h)
  {
  }

  /** An entity made by CreateEntity can be updated through the handle it
      got, because a free slot is never temporary. */
  lemma CreatedIsUpdatable(slots: seq<Slot>, params: RenderEntityParams)
    requires SlotsWellFormed(slots) && |slots| < RenderHandleInvalid as int
    requires FirstInactive(slots).Some?
    ensures var k := FirstInactive(slots).value;
      Updatable(slots[k := Claimed(slots[k], params)], k as Handle)
  {
    var k := FirstInactive(slots).value;
    assert !slots[k].active;
  }

  /** A destroyed slot is the next one handed out when every slot before
      it is in use: handles are reused lowest first. */
  lemma DestroyedSlotIsReused(slots: seq<Slot>, k: nat)
    requires k < |slots|
    requires forall j :: 0 <= j < k ==> slots[j].active
    ensures FirstInactive(slots[k := Destroyed(slots[k])]) == Some(k)
  {
    var after := slots[k := Destroyed(slots[k])];
    assert !after[k].active;
  }

  /** A handle's surface count as GetNumSurfacesForModel reports it for a
      model table whose surface counts are `sizes`: the sentinel for the
      sentinel handle and for handles past the table, otherwise the count
      truncated to 32 bits. */
  function SurfaceCountIn(sizes: seq<nat>, h: Handle): u32
  {
    if h == RenderHandleInvalid || h as int >= |sizes| then RenderHandleInvalid else ToU32(sizes[h])
  }

  /** The sentinel comes back for the sentinel handle, for handles past the
      table, and also for a model with 2^32 - 1 surfaces (modulo 2^32);
      any smaller count comes back unchanged. */
  lemma SurfaceCountMeaning(sizes: seq<nat>, h: Handle)
    ensures SurfaceCountIn(sizes, h) == RenderHandleInvalid <==>
      (h == RenderHandleInvalid || h as int >= |sizes| || sizes[h] % 0x1_0000_0000 == 0xFFFF_FFFF)
    ensures h != RenderHandleInvalid && (h as int) < |sizes| && sizes[h] < 0xFFFF_FFFF ==>
      SurfaceCountIn(sizes, h) as int == sizes[h]
  {
  }

  /** The `uint32_t` count stored into RenderFrame's `int numSurfaces`. */
  function AsInt32(c: u32): int
  {
    if c < 0x8000_0000 then c as int else c as int - 0x1_0000_0000
  }

  /** How many surfaces RenderFrame draws for an entity of model `h`: none
      when the count is the sentinel, and otherwise as many as the `int`
      loop bound allows. */
  function DrawsFor(sizes: seq<nat>, h: Handle): nat
  {
    var c := SurfaceCountIn(sizes, h);
    if c == RenderHandleInvalid || AsInt32(c) < 0 then 0 else AsInt32(c)
  }

  /** Every surface index RenderFrame passes to the backend exists in the
      model; for a model with fewer than 2^31 surfaces all of them are
      drawn, once each; a handle outside the table draws nothing. */
  lemma DrawsForMeaning(sizes: seq<nat>, h: Handle)
    ensures (h as int) < |sizes| ==> DrawsFor(sizes, h) <= sizes[h]
    ensures h != RenderHandleInvalid && (h as int) < |sizes| && sizes[h] < 0x8000_0000 ==>
      DrawsFor(sizes, h) == sizes[h]
    ensures h == RenderHandleInvalid || h as int >= |sizes| ==> DrawsFor(sizes, h) == 0
  {
    if h != RenderHandleInvalid && (h as int) < |sizes| {
      var c := SurfaceCountIn(sizes, h);
      assert c as int <= sizes[h] by {
        if sizes[h] >= 0x1_0000_0000 {
          assert c as int < 0x1_0000_0000;
        }
      }
    }
  }

  /** Whether RenderFrame's `continue` skips an active slot. */
  predicate Skipped(s: Slot, sizes: seq<nat>)
  {
    SurfaceCountIn(sizes, s.params.model) == RenderHandleInvalid
  }

  /** The draws one slot contributes to a frame. */
  function SlotDraws(s: Slot, sizes: seq<nat>): nat
  {
    if s.active then DrawsFor(sizes, s.params.model) else 0
  }

  /** The slot after RenderFrame has visited it: a temporary entity that was
      not skipped is freed, every other slot is left alone. */
  function SlotAfterFrame(s: Slot, sizes: seq<nat>): Slot
  {
    if s.active && !Skipped(s, sizes) && s.temporary then Destroyed(s) else s
  }

  /** The draws of a whole slot array, in slot order. */
  function FrameDraws(slots: seq<Slot>, sizes: seq<nat>): nat
  {
    if slots == [] then 0 else FrameDraws(slots[..|slots| - 1], sizes) + SlotDraws(slots[|slots| - 1], sizes)
  }

  /** The draws of surfaces 0 .. n - 1 of model `h`, in that order. */
  function EntityDraws(h: Handle, n: nat): (ds: seq<SurfaceDraw>)
    ensures |ds| == n
    ensures forall i :: 0 <= i < n ==> ds[i] == SurfaceDraw(h, i)
  {
    if n == 0 then [] else EntityDraws(h, n - 1) + [SurfaceDraw(h, n - 1)]
  }

  /** The surfaces one slot has drawn in a frame. */
  function SlotLog(s: Slot, sizes: seq<nat>): seq<SurfaceDraw>
  {
    if s.active then EntityDraws(s.params.model, DrawsFor(sizes, s.params.model)) else []
  }

  /** The surfaces a whole slot array has drawn in a frame, slot by slot in
      index order. */
  function FrameLog(slots: seq<Slot>, sizes: seq<nat>): seq<SurfaceDraw>
  {
    if slots == [] then [] else FrameLog(slots[..|slots| - 1], sizes) + SlotLog(slots[|slots| - 1], sizes)
  }

  /** The frame's draw counter counts the frame's draws, and every draw
      names a surface its model has. */
  lemma {:induction false} FrameLogMeaning(slots: seq<Slot>, sizes: seq<nat>)
    ensures |FrameLog(slots, sizes)| == FrameDraws(slots, sizes)
    ensures forall d :: d in FrameLog(slots, sizes) ==> (d.model as int) < |sizes| && d.surface < sizes[d.model]
  {
    if slots != [] {
      var last := slots[|slots| - 1];
      FrameLogMeaning(slots[..|slots| - 1], sizes);
      DrawsForMeaning(sizes, last.params.model);
      forall d | d in SlotLog(last, sizes)
        ensures (d.model as int) < |sizes| && d.surface < sizes[d.model]
      {
        var ds := SlotLog(last, sizes);
        var i :| 0 <= i < |ds| && ds[i] == d;
        assert d == SurfaceDraw(last.params.model, i);
      }
    }
  }

  /** An immediate entity of a valid model is drawn in the frame it was
      submitted in and in no later frame. */
  lemma ImmediateDrawnOnce(p: RenderEntityParams, sizes: seq<nat>)
    requires p.model != RenderHandleInvalid && (p.model as int) < |sizes| && sizes[p.model] < 0x8000_0000
    ensures SlotDraws(Slot(p, true, true), sizes) == sizes[p.model]
    ensures var after := SlotAfterFrame(Slot(p, true, true), sizes);
      !after.active && !after.temporary && SlotDraws(after, sizes) == 0 &&
      SlotAfterFrame(after, sizes) == after
  {
    DrawsForMeaning(sizes, p.model);
  }

  /** As written, an immediate entity whose model handle is not a model is
      never drawn but never freed either: it stays active and temporary,
      so it holds its slot, and UpdateEntity refuses it, until DestroyEntity. */
  lemma BadModelImmediateStaysActive(p: RenderEntityParams, sizes: seq<nat>)
    requires p.model == RenderHandleInvalid || p.model as int >= |sizes|
    ensures SlotAfterFrame(Slot(p, true, true), sizes) == Slot(p, true, true)
    ensures SlotDraws(Slot(p, true, true), sizes) == 0
    ensures forall h: Handle :: !Updatable([Slot(p, true, true)], h)
  {
  }

  /** Entities that are not temporary, and destroyed ones, come through a
      frame unchanged; destroyed ones are not drawn. */
  lemma FrameKeepsPersistentSlots(s: Slot, sizes: seq<nat>)
    ensures !s.temporary ==> SlotAfterFrame(s, sizes) == s
    ensures SlotAfterFrame(Destroyed(s), sizes) == Destroyed(s) && SlotDraws(Destroyed(s), sizes) == 0
  {
  }

  /** A frame keeps the slots well formed. */
  lemma FrameKeepsSlotsWellFormed(s: Slot, sizes: seq<nat>)
    ensures (s.temporary ==> s.active) ==> (SlotAfterFrame(s, sizes).temporary ==> SlotAfterFrame(s, sizes).active)
  {
  }

  /** Position of the first of `names` equal to `name`. */
  function FindName(names: seq<string>, name: string): (r: Option<nat>)
    ensures r.Some? ==> r.value < |names| && names[r.value] == name
    ensures r.Some? ==> forall j :: 0 <= j < r.value ==> names[j] != name
    ensures r.None? <==> name !in names
  {
    if names == [] then None
    else if names[0] == name then Some(0)
    else match FindName(names[1..], name)
      case None => None
      case Some(k) => Some(k + 1)
  }

  /** No name occurs twice. */
  predicate Distinct(names: seq<string>)
  {
    forall i, j :: 0 <= i < j < |names| ==> names[i] != names[j]
  }

  /** A name registry after a look-up-or-add by name: unchanged when the
      name is there, the name appended otherwise. */
  function Registered(names: seq<string>, name: string): seq<string>
  {
    if name in names then names else names + [name]
  }

  /** Look-up-or-add keeps a registry free of duplicates, always leaves the
      name registered, and never removes or reorders a name. */
  lemma RegisteredKeepsDistinct(names: seq<string>, name: string)
    ensures Distinct(names) ==> Distinct(Registered(names, name))
    ensures name in Registered(names, name)
    ensures Registered(names, name)[..|names|] == names
  {
  }

  function TextureNames(ts: seq<Texture>): (names: seq<string>)
    reads ts
    ensures |names| == |ts|
    ensures forall k :: 0 <= k < |ts| ==> names[k] == ts[k].GetName()
  {
    if ts == [] then [] else TextureNames(ts[..|ts| - 1]) + [ts[|ts| - 1].GetName()]
  }

  function MaterialNames(ms: seq<Material>): (names: seq<string>)
    reads ms
    ensures |names| == |ms|
    ensures forall k :: 0 <= k < |ms| ==> names[k] == ms[k].GetName()
  {
    if ms == [] then [] else MaterialNames(ms[..|ms| - 1]) + [ms[|ms| - 1].name]
  }

  function ModelNames(ms: seq<OM.Model>): (names: seq<string>)
    reads ms
    ensures |names| == |ms|
    ensures forall k :: 0 <= k < |ms| ==> names[k] == ms[k].name
  {
    if ms == [] then [] else ModelNames(ms[..|ms| - 1]) + [ms[|ms| - 1].name]
  }

  /** The meshes of a model list. */
  function MeshesOf(ms: seq<OM.Model>): set<DrawMesh>
    reads ms
  {
    set m | m in ms :: m.mesh
  }

  /** The surface counts of a model list, model by model. */
  function SizesOf(ms: seq<OM.Model>): (sizes: seq<nat>)
    reads ms, MeshesOf(ms)
    ensures |sizes| == |ms|
    ensures forall k :: 0 <= k < |ms| ==> sizes[k] == |ms[k].mesh.surfaces|
  {
    if ms == [] then [] else SizesOf(ms[..|ms| - 1]) + [|ms[|ms| - 1].mesh.surfaces|]
  }

  /** The texture every surface of a newly created model gets. */
  const PlaceholderTexture: string := "metal1.png"

  /** Whether a model file parses into a mesh (Model::Okay after loading). */
  predicate Parses(file: OM.ModelFile, toFloat: OM.FloatReader)
  {
    file.Contents? && OM.Scan(file.text, toFloat, 0, OM.NoLists).Some?
  }

  class RenderWorld {
    const entities: array<Slot>
    var models: seq<OM.Model>
    var textures: seq<Texture>
    var materials: seq<Material>
    const backend: Renderer

    /** The index alignment between the world's models and the backend's
        vertex-array groups that lets RenderSurface index both with one
        handle, the fixed slot count, and well-formed slots. */
    predicate Valid()
      reads this, entities, backend, models, MeshesOf(models)
    {
      entities.Length == EntityCount && Aligned() && SlotsWellFormed(entities[..])
    }

    /** One backend vertex-array group per model, one array per surface. */
    predicate Aligned()
      reads this, backend, models, MeshesOf(models)
    {
      |models| == |backend.vertexArrays| &&
      forall m :: 0 <= m < |models| ==> |backend.vertexArrays[m]| == |models[m].mesh.surfaces|
    }

    /** A world over a backend that has no models yet: every slot free and
        every registry empty. */
    constructor (renderer: Renderer)
      requires renderer.vertexArrays == []
      ensures Valid() && fresh(entities) && backend == renderer
      ensures forall k :: 0 <= k < entities.Length ==> entities[k] == FreeSlot
      ensures models == [] && textures == [] && materials == []
    {
      entities := new Slot[EntityCount](_ => FreeSlot);
      models := [];
      textures := [];
      materials := [];
      backend := renderer;
    }

    /** CreateEntity: the lowest inactive slot takes the parameters and
        becomes active, and its index is the handle; with every slot in use
        nothing changes and the sentinel comes back. */
    method CreateEntity(params: RenderEntityParams) returns (h: Handle)
      requires Valid()
      modifies entities
      ensures Valid()
      ensures FirstInactive(old(entities[..])).None? ==> h == RenderHandleInvalid && entities[..] == old(entities[..])
      ensures FirstInactive(old(entities[..])).Some? ==>
        h as int == FirstInactive(old(entities[..])).value &&
        entities[..] == old(entities[..])[h := Claimed(old(entities[h]), params)]
    {
      var i := 0;
      while i < entities.Length
        invariant i <= entities.Length
        invariant forall j :: 0 <= j < i ==> entities[j].active
        invariant entities[..] == old(entities[..])
      {
        if !entities[i].active {
          assert FirstInactive(entities[..]) == Some(i) by {
            FirstInactiveIs(entities[..], i);
          }
          entities[i] := Claimed(entities[i], params);
          return i as Handle;
        }
        i := i + 1;
      }
      return RenderHandleInvalid;
    }

    /** UpdateEntity: refused for the sentinel, for handles past the array
        and for inactive or temporary slots; otherwise only the slot's
        parameters are replaced. */
    method UpdateEntity(handle: Handle, params: RenderEntityParams) returns (ok: bool)
      requires Valid()
      modifies entities
      ensures Valid()
      ensures ok <==> Updatable(old(entities[..]), handle)
      ensures ok ==> entities[..] == old(entities[..])[handle := old(entities[handle]).(params := params)]
      ensures !ok ==> entities[..] == old(entities[..])
    {
      if handle == RenderHandleInvalid {
        return false;
      }
      if handle as int >= entities.Length {
        return false;
      }
      if !entities[handle].active || entities[handle].temporary {
        return false;
      }
      entities[handle] := entities[handle].(params := params);
      return true;
    }

    /** CreateImmediateEntity: CreateEntity, then the claimed slot is marked
        temporary; false when no slot is free. */
    method CreateImmediateEntity(params: RenderEntityParams) returns (ok: bool)
      requires Valid()
      modifies entities
      ensures Valid()
      ensures ok <==> FirstInactive(old(entities[..])).Some?
      ensures ok ==> var k := FirstInactive(old(entities[..])).value;
        entities[..] == old(entities[..])[k := Slot(params, true, true)]
      ensures !ok ==> entities[..] == old(entities[..])
    {
      var h := CreateEntity(params);
      if h == RenderHandleInvalid {
        return false;
      }
      entities[h] := entities[h].(temporary := true);
      return true;
    }

    /** DestroyEntity: the slot is freed whatever its state. The source
        indexes with `at`, which throws past the end. */
    method DestroyEntity(handle: Handle)
      requires Valid() && (handle as int) < EntityCount
      modifies entities
      ensures Valid()
      ensures entities[..] == old(entities[..])[handle := Destroyed(old(entities[handle]))]
    {
      entities[handle] := Destroyed(entities[handle]);
    }

    /** GetNumSurfacesForModel: the model's surface count as a `uint32_t`,
        or the sentinel for the sentinel handle and handles past the table. */
    function GetNumSurfacesForModel(handle: Handle): (c: u32)
      reads this, models, MeshesOf(models)
      ensures c == SurfaceCountIn(SizesOf(models), handle)
    {
      if handle == RenderHandleInvalid || handle as int >= |models| then RenderHandleInvalid
      else ToU32(|models[handle].mesh.surfaces|)
    }

    /** RenderFrame: the backend starts a frame (its draw counter restarts)
        and takes the view; then every slot is visited in order, an active
        slot whose model count is not the sentinel has its surfaces drawn,
        in order, and, if temporary, is freed. The frame's draws are exactly
        those, slot by slot; the draw counter ends at their number modulo
        2^32; the models are untouched. */
    method RenderFrame(view: RenderView)
      requires Valid()
      modifies entities, backend
      ensures Valid()
      ensures backend.GetRenderView() == view
      ensures backend.vertexArrays == old(backend.vertexArrays)
      ensures backend.numDrawCalls == ToU32(FrameDraws(old(entities[..]), SizesOf(models)))
      ensures backend.drawn == FrameLog(old(entities[..]), SizesOf(models))
      ensures forall k :: 0 <= k < entities.Length ==> entities[k] == SlotAfterFrame(old(entities[k]), SizesOf(models))
    {
      backend.BeginFrame();
      backend.SetRenderView(view);
      ghost var sizes := SizesOf(models);
      ghost var before := entities[..];
      VisitSlots(sizes, before);
      forall k | 0 <= k < entities.Length
        ensures entities[k].temporary ==> entities[k].active
      {
        FrameKeepsSlotsWellFormed(before[k], sizes);
      }
    }

    /** The loop of RenderFrame over the slot array, from a draw counter of 0. */
    method VisitSlots(ghost sizes: seq<nat>, ghost before: seq<Slot>)
      requires entities[..] == before && Aligned() && sizes == SizesOf(models)
      requires backend.numDrawCalls == 0 && backend.drawn == []
      modifies entities, backend
      ensures Aligned() && sizes == SizesOf(models)
      ensures backend.vertexArrays == old(backend.vertexArrays)
      ensures backend.GetRenderView() == old(backend.GetRenderView())
      ensures backend.numDrawCalls == ToU32(FrameDraws(before, sizes))
      ensures backend.drawn == FrameLog(before, sizes)
      ensures forall k :: 0 <= k < entities.Length ==> entities[k] == SlotAfterFrame(before[k], sizes)
    {
      var i := 0;
      while i < entities.Length
        invariant i <= entities.Length
        invariant Aligned() && sizes == SizesOf(models)
        invariant backend.vertexArrays == old(backend.vertexArrays)
        invariant backend.GetRenderView() == old(backend.GetRenderView())
        invariant backend.numDrawCalls == ToU32(FrameDraws(before[..i], sizes))
        invariant backend.drawn == FrameLog(before[..i], sizes)
        invariant forall k :: 0 <= k < i ==> entities[k] == SlotAfterFrame(before[k], sizes)
        invariant forall k :: i <= k < entities.Length ==> entities[k] == before[k]
      {
        RenderSlot(i, sizes, before);
        i := i + 1;
      }
      assert before[..entities.Length] == before;
    }

    /** The body of RenderFrame's loop for slot i: an active slot whose
        model count is not the sentinel has its surfaces drawn and, if
        temporary, is freed; `before` is the slot array as the frame found it. */
    method RenderSlot(i: nat, ghost sizes: seq<nat>, ghost before: seq<Slot>)
      requires i < entities.Length && i < |before| && entities[i] == before[i]
      requires Aligned() && sizes == SizesOf(models)
      requires backend.numDrawCalls == ToU32(FrameDraws(before[..i], sizes))
      requires backend.drawn == FrameLog(before[..i], sizes)
      modifies entities, backend
      ensures Aligned()
      ensures backend.vertexArrays == old(backend.vertexArrays)
      ensures backend.GetRenderView() == old(backend.GetRenderView())
      ensures backend.numDrawCalls == ToU32(FrameDraws(before[..i + 1], sizes))
      ensures backend.drawn == FrameLog(before[..i + 1], sizes)
      ensures entities[i] == SlotAfterFrame(old(entities[i]), sizes)
      ensures forall k :: 0 <= k < entities.Length && k != i ==> entities[k] == old(entities[k])
    {
      var e := entities[i];
      var visited := DrawSlot(e, i, sizes, before);
      if visited && e.temporary {
        entities[i] := Destroyed(e);
      }
    }

    /** The backend side of RenderFrame's loop body for slot `i` holding
        `e`: an active slot whose model count is not the sentinel is
        visited and has its surfaces drawn after the draws of the slots
        before it; any other slot draws nothing. */
    method DrawSlot(e: Slot, i: nat, ghost sizes: seq<nat>, ghost before: seq<Slot>) returns (visited: bool)
      requires i < |before| && e == before[i]
      requires Aligned() && sizes == SizesOf(models)
      requires backend.numDrawCalls == ToU32(FrameDraws(before[..i], sizes))
      requires backend.drawn == FrameLog(before[..i], sizes)
      modifies backend
      ensures visited <==> e.active && !Skipped(e, sizes)
      ensures backend.numDrawCalls == ToU32(FrameDraws(before[..i + 1], sizes))
      ensures backend.drawn == FrameLog(before[..i + 1], sizes)
      ensures backend.vertexArrays == old(backend.vertexArrays)
      ensures backend.GetRenderView() == old(backend.GetRenderView())
    {
      FrameDrawsStep(before, i, sizes);
      if e.active {
        var count := GetNumSurfacesForModel(e.params.model);
        if count != RenderHandleInvalid {
          DrawsForMeaning(sizes, e.params.model);
          DrawEntity(backend, e.params, AsInt32(count), FrameDraws(before[..i], sizes));
          return true;
        }
      }
      return false;
    }

    /** The loop of CreateModel that looks for a model by name. */
    method FindModel(name: string) returns (r: Option<nat>)
      ensures r == FindName(ModelNames(models), name)
    {
      ghost var names := ModelNames(models);
      var i := 0;
      while i < |models|
        invariant i <= |models|
        invariant forall j :: 0 <= j < i ==> names[j] != name
      {
        if models[i].name == name {
          FindNameIs(names, name, i);
          return Some(i);
        }
        i := i + 1;
      }
      return None;
    }

    /** CreateModel: the first model named like the path is returned as it
        is. Otherwise a new model is appended and loaded from `file`; when it
        parses, every surface gets the placeholder material (the texture
        "metal1.png", loaded from `image` on first use, and a simple material
        over it), the backend uploads the mesh and the new index is the
        handle; when it does not parse, the model is removed again and the
        sentinel comes back. The source dereferences the texture without a
        null check, so the placeholder must be loadable when it is needed. */
    method CreateModel(params: RenderModelParams, file: OM.ModelFile, toFloat: OM.FloatReader,
                       image: Option<ImageInfo>, textureHandle: u32)
      returns (h: Handle)
      requires Valid()
      requires |models| < RenderHandleInvalid as int
      requires (FindName(ModelNames(models), params.modelPath).None? && Parses(file, toFloat) &&
                PlaceholderTexture !in TextureNames(textures)) ==>
               image.Some?
      modifies this, backend
      ensures Valid()
      ensures var found := FindName(old(ModelNames(models)), params.modelPath);
        found.Some? ==> h as int == found.value && models == old(models)
      ensures var found := FindName(old(ModelNames(models)), params.modelPath);
        found.None? && !Parses(file, toFloat) ==> h == RenderHandleInvalid && models == old(models)
      ensures FindName(old(ModelNames(models)), params.modelPath).Some? || !Parses(file, toFloat) ==>
        textures == old(textures) && materials == old(materials) && unchanged(backend)
      ensures FindName(old(ModelNames(models)), params.modelPath).None? && Parses(file, toFloat) ==>
        h as int == |old(models)| && |models| == h as int + 1 && models[..h] == old(models) &&
        fresh(models[h]) && models[h].name == params.modelPath &&
        |models[h].mesh.surfaces| == 1 &&
        (var parsed := OM.Scan(file.text, toFloat, 0, OM.NoLists).value;
         models[h].mesh.vertices == OM.MeshVertices(parsed.vertices) &&
         models[h].mesh.surfaces[0].vertexIndices == OM.FlattenTriangles(parsed.triangles)) &&
        models[h].mesh.surfaces[0].material != null &&
        models[h].mesh.surfaces[0].material.GetName() == PlaceholderTexture
      ensures FindName(old(ModelNames(models)), params.modelPath).None? && Parses(file, toFloat) ==>
        (h as int) < |models| && BackendGrewBy(old(backend.vertexArrays), old(backend.vertexBuffers), models[h])
      ensures backend.numDrawCalls == old(backend.numDrawCalls) && backend.drawn == old(backend.drawn)
      ensures backend.GetRenderView() == old(backend.GetRenderView())
    {
      var found := FindModel(params.modelPath);
      if found.Some? {
        return found.value as Handle;
      }
      h := AddNewModel(params, file, toFloat, image, textureHandle);
    }

    /** Whether the backend holds the old vertex arrays and buffers followed
        by one new buffer holding the model's vertices and one new group
        holding, surface by surface, the model's indices and materials. */
    predicate BackendGrewBy(arrays: seq<seq<VB.VertexArray>>, buffers: seq<VB.VertexBuffer>, model: OM.Model)
      reads this, backend, model, model.mesh, backend.vertexBuffers
      reads if |arrays| < |backend.vertexArrays| then backend.vertexArrays[|arrays|] else []
    {
      |backend.vertexArrays| == |arrays| + 1 && backend.vertexArrays[..|arrays|] == arrays &&
      |backend.vertexBuffers| == |buffers| + 1 && backend.vertexBuffers[..|buffers|] == buffers &&
      backend.vertexBuffers[|buffers|].data == VB.Flatten(model.mesh.vertices) &&
      var group := backend.vertexArrays[|arrays|];
      |group| == |model.mesh.surfaces| &&
      forall i :: 0 <= i < |group| ==>
        group[i].indices == model.mesh.surfaces[i].vertexIndices && group[i].material == model.mesh.surfaces[i].material
    }

    /** CreateModel for a path no model has yet: load the model and, when it
        parses, append it and upload it to the backend. */
    method AddNewModel(params: RenderModelParams, file: OM.ModelFile, toFloat: OM.FloatReader,
                       image: Option<ImageInfo>, textureHandle: u32)
      returns (h: Handle)
      requires Valid()
      requires |models| < RenderHandleInvalid as int
      requires (Parses(file, toFloat) && PlaceholderTexture !in TextureNames(textures)) ==> image.Some?
      modifies this, backend
      ensures Valid()
      ensures !Parses(file, toFloat) ==>
        h == RenderHandleInvalid && models == old(models) &&
        textures == old(textures) && materials == old(materials) && unchanged(backend)
      ensures Parses(file, toFloat) ==>
        h as int == |old(models)| && |models| == h as int + 1 && models[..h] == old(models) &&
        fresh(models[h]) && models[h].name == params.modelPath &&
        |models[h].mesh.surfaces| == 1 &&
        (var parsed := OM.Scan(file.text, toFloat, 0, OM.NoLists).value;
         models[h].mesh.vertices == OM.MeshVertices(parsed.vertices) &&
         models[h].mesh.surfaces[0].vertexIndices == OM.FlattenTriangles(parsed.triangles)) &&
        models[h].mesh.surfaces[0].material != null &&
        models[h].mesh.surfaces[0].material.GetName() == PlaceholderTexture &&
        BackendGrewBy(old(backend.vertexArrays), old(backend.vertexBuffers), models[h])
      ensures backend.numDrawCalls == old(backend.numDrawCalls) && backend.drawn == old(backend.drawn)
      ensures backend.GetRenderView() == old(backend.GetRenderView())
    {
      var model, ok := LoadNewModel(params.modelPath, file, toFloat, image, textureHandle);
      if !ok {
        return RenderHandleInvalid;
      }
      h := |models| as Handle;
      UploadModel(params, model);
    }

    /** The end of CreateModel: the loaded model joins the list and the
        backend builds its buffers, one vertex-array group per surface, so
        the two stay index-aligned. */
    method UploadModel(params: RenderModelParams, model: OM.Model)
      requires Valid()
      modifies this, backend
      ensures Valid()
      ensures models == old(models) + [model]
      ensures textures == old(textures) && materials == old(materials)
      ensures BackendGrewBy(old(backend.vertexArrays), old(backend.vertexBuffers), model)
      ensures backend.numDrawCalls == old(backend.numDrawCalls) && backend.drawn == old(backend.drawn)
      ensures backend.GetRenderView() == old(backend.GetRenderView())
    {
      models := models + [model];
      var _ := backend.CreateModel(params, model.mesh);
    }

    /** The middle of CreateModel: a new model loaded from the file and, when
        it parses, given the placeholder material on every surface. The
        source appends the model before loading it and removes it again on
        failure; nothing in between looks at the model list, so here the
        caller appends it on success only. */
    method LoadNewModel(path: string, file: OM.ModelFile, toFloat: OM.FloatReader,
                        image: Option<ImageInfo>, textureHandle: u32)
      returns (model: OM.Model, ok: bool)
      requires (Parses(file, toFloat) && PlaceholderTexture !in TextureNames(textures)) ==>
               image.Some?
      modifies this
      ensures models == old(models)
      ensures fresh(model) && model.name == path
      ensures ok <==> Parses(file, toFloat)
      ensures !ok ==> textures == old(textures) && materials == old(materials)
      ensures ok ==>
        fresh(model.mesh) && |model.mesh.surfaces| == 1 &&
        (var parsed := OM.Scan(file.text, toFloat, 0, OM.NoLists).value;
         model.mesh.vertices == OM.MeshVertices(parsed.vertices) &&
         model.mesh.surfaces[0].vertexIndices == OM.FlattenTriangles(parsed.triangles)) &&
        model.mesh.surfaces[0].material != null &&
        model.mesh.surfaces[0].material.GetName() == PlaceholderTexture
    {
      model := new OM.Model();
      model.LoadFromPath(path, file, toFloat);
      ok := model.Okay();
      if ok {
        AssignPlaceholderMaterials(model.mesh, image, textureHandle);
      }
    }

    /** The loop of CreateModel over the new mesh's surfaces: each gets the
        material CreateMaterialSimple makes over the placeholder texture. */
    method AssignPlaceholderMaterials(mesh: DrawMesh, image: Option<ImageInfo>, textureHandle: u32)
      requires PlaceholderTexture in TextureNames(textures) || image.Some?
      modifies this, mesh
      ensures models == old(models)
      ensures mesh.vertices == old(mesh.vertices) && mesh.triangles == old(mesh.triangles)
      ensures |mesh.surfaces| == |old(mesh.surfaces)|
      ensures forall i :: 0 <= i < |mesh.surfaces| ==>
        mesh.surfaces[i].materialName == old(mesh.surfaces[i].materialName) &&
        mesh.surfaces[i].vertexIndices == old(mesh.surfaces[i].vertexIndices) &&
        mesh.surfaces[i].material != null && mesh.surfaces[i].material.GetName() == PlaceholderTexture
    {
      var surfaces := mesh.surfaces;
      var i := 0;
      while i < |surfaces|
        invariant i <= |surfaces| == |mesh.surfaces|
        invariant unchanged(mesh)
        invariant models == old(models)
        invariant PlaceholderTexture in TextureNames(textures) || image.Some?
        invariant forall j :: 0 <= j < |surfaces| ==>
          surfaces[j].materialName == mesh.surfaces[j].materialName &&
          surfaces[j].vertexIndices == mesh.surfaces[j].vertexIndices
        invariant forall j :: 0 <= j < i ==>
          surfaces[j].material != null && surfaces[j].material.GetName() == PlaceholderTexture
      {
        var material := PlaceholderMaterial(image, textureHandle);
        surfaces := surfaces[i := surfaces[i].(material := material)];
        i := i + 1;
      }
      mesh.surfaces := surfaces;
    }

    /** One step of that loop: LoadTexture of the placeholder with the
        albedo type and the default flags, then CreateMaterialSimple over it. */
    method PlaceholderMaterial(image: Option<ImageInfo>, textureHandle: u32) returns (m: Material)
      requires PlaceholderTexture in TextureNames(textures) || image.Some?
      modifies this
      ensures models == old(models)
      ensures PlaceholderTexture in TextureNames(textures)
      ensures m.GetName() == PlaceholderTexture
    {
      var texture := LoadTexture(PlaceholderTexture, TF.Albedo, TF.DefaultTextureFlags, image, textureHandle);
      assert texture != null;
      m := CreateMaterialSimple(texture);
    }

    /** The loop of CreateMaterialSimple that looks for a material by name. */
    method FindMaterial(name: string) returns (r: Option<nat>)
      ensures r == FindName(MaterialNames(materials), name)
    {
      ghost var names := MaterialNames(materials);
      var i := 0;
      while i < |materials|
        invariant i <= |materials|
        invariant forall j :: 0 <= j < i ==> names[j] != name
      {
        if materials[i].GetName() == name {
          FindNameIs(names, name, i);
          return Some(i);
        }
        i := i + 1;
      }
      return None;
    }

    /** CreateMaterialSimple: the first material named like the texture is
        returned as it is; otherwise a new material named after the texture,
        with the backend's default shader and that one texture, is appended
        and returned. */
    method CreateMaterialSimple(diffuse: Texture) returns (m: Material)
      modifies this
      ensures models == old(models) && textures == old(textures)
      ensures var found := FindName(MaterialNames(old(materials)), diffuse.GetName());
        found.Some? ==> m == old(materials)[found.value] && materials == old(materials)
      ensures var found := FindName(MaterialNames(old(materials)), diffuse.GetName());
        found.None? ==>
          fresh(m) && materials == old(materials) + [m] &&
          m.GetName() == diffuse.GetName() && m.GetShader() == backend.GetDefaultShader() &&
          m.textures == [diffuse]
      ensures m.GetName() == diffuse.GetName() && m in materials
    {
      ghost var names := MaterialNames(materials);
      var found := FindMaterial(diffuse.GetName());
      if found.Some? {
        assert names[found.value] == diffuse.GetName();
        return materials[found.value];
      }
      m := NewMaterial(diffuse, backend.GetDefaultShader());
      materials := materials + [m];
    }

    /** The loop of LoadTexture and CreateTexture that looks for a texture by name. */
    method FindTexture(name: string) returns (r: Option<nat>)
      ensures r == FindName(TextureNames(textures), name)
    {
      ghost var names := TextureNames(textures);
      var i := 0;
      while i < |textures|
        invariant i <= |textures|
        invariant forall j :: 0 <= j < i ==> names[j] != name
      {
        if textures[i].GetName() == name {
          FindNameIs(names, name, i);
          return Some(i);
        }
        i := i + 1;
      }
      return None;
    }

    /** LoadTexture: the first texture named `path` is returned as it is.
        Otherwise the backend allocates a texture named `path` (`handle` is
        its GL name), type and flags are set and the file is decoded
        (`image` is the decoder's outcome); a decode failure yields null and
        registers nothing, success registers the texture. */
    method LoadTexture(path: string, textureType: TF.TextureType, flags: TF.Flags, image: Option<ImageInfo>, handle: u32)
      returns (t: Texture?)
      modifies this
      ensures models == old(models) && materials == old(materials)
      ensures var found := FindName(old(TextureNames(textures)), path);
        found.Some? ==> t == old(textures)[found.value] && textures == old(textures)
      ensures var found := FindName(old(TextureNames(textures)), path);
        found.None? && image.None? ==> t == null && textures == old(textures)
      ensures var found := FindName(old(TextureNames(textures)), path);
        found.None? && image.Some? ==>
          t != null && fresh(t) && textures == old(textures) + [t] &&
          t.GetName() == path && t.textureType == textureType && t.loaded &&
          t.flags == ChannelFlags(flags, image.value.channels) && t.textureHandle == handle
      ensures t != null ==> t.GetName() == path && t in textures
    {
      ghost var names := TextureNames(textures);
      var found := FindTexture(path);
      if found.Some? {
        assert names[found.value] == path;
        return textures[found.value];
      }
      var texture, ok := DecodeNewTexture(backend, path, textureType, flags, image, handle);
      if !ok {
        return null;
      }
      textures := textures + [texture];
      return texture;
    }

    /** CreateTexture: the first texture named `name` is returned as it is;
        otherwise the backend allocates one named `name`, it is filled
        directly with the given size, type and flags and registered. The
        pixel data pointer is not modelled. */
    method CreateTexture(name: string, width: int, height: int, textureType: TF.TextureType, flags: TF.Flags, handle: u32)
      returns (t: Texture)
      modifies this
      ensures models == old(models) && materials == old(materials)
      ensures var found := FindName(old(TextureNames(textures)), name);
        found.Some? ==> t == old(textures)[found.value] && textures == old(textures)
      ensures var found := FindName(old(TextureNames(textures)), name);
        found.None? ==>
          fresh(t) && textures == old(textures) + [t] &&
          t.textureType == textureType && t.flags == flags && t.loaded &&
          t.upload == Some(UploadFor(width, height, flags)) && t.textureHandle == handle
      ensures t.GetName() == name && t in textures
    {
      ghost var names := TextureNames(textures);
      var found := FindTexture(name);
      if found.Some? {
        assert names[found.value] == name;
        return textures[found.value];
      }
      t := FillNewTexture(backend, name, width, height, textureType, flags, handle);
      textures := textures + [t];
    }
  }

  /** The inner loop of RenderFrame: surfaces 0 .. numSurfaces - 1 of the
      entity's model, one draw call each, in order; none when the count is
      not positive. `drawn` is the frame's draw total so far. */
  method DrawEntity(backend: Renderer, params: RenderEntityParams, numSurfaces: int, ghost drawn: int)
    requires numSurfaces > 0 ==>
      params.model as int < |backend.vertexArrays| && numSurfaces <= |backend.vertexArrays[params.model]|
    requires backend.numDrawCalls == ToU32(drawn)
    modifies backend
    ensures backend.numDrawCalls == ToU32(drawn + if numSurfaces < 0 then 0 else numSurfaces)
    ensures backend.drawn == old(backend.drawn) + EntityDraws(params.model, if numSurfaces < 0 then 0 else numSurfaces)
    ensures backend.vertexArrays == old(backend.vertexArrays)
    ensures backend.GetRenderView() == old(backend.GetRenderView())
  {
    var i := 0;
    while i < numSurfaces
      invariant numSurfaces > 0 ==> i <= numSurfaces
      invariant numSurfaces <= 0 ==> i == 0
      invariant backend.numDrawCalls == ToU32(drawn + i)
      invariant backend.drawn == old(backend.drawn) + EntityDraws(params.model, i)
      invariant backend.vertexArrays == old(backend.vertexArrays)
      invariant backend.GetRenderView() == old(backend.GetRenderView())
    {
      var _ := backend.RenderSurface(params, i);
      CounterStep(drawn + i);
      i := i + 1;
    }
  }

  /** The frame total over one more slot adds that slot's draws. */
  lemma FrameDrawsStep(slots: seq<Slot>, i: nat, sizes: seq<nat>)
    requires i < |slots|
    ensures FrameDraws(slots[..i + 1], sizes) == FrameDraws(slots[..i], sizes) + SlotDraws(slots[i], sizes)
    ensures FrameLog(slots[..i + 1], sizes) == FrameLog(slots[..i], sizes) + SlotLog(slots[i], sizes)
  {
    assert slots[..i + 1][..i] == slots[..i];
  }

  /** The texture LoadTexture allocates and decodes on a miss. */
  method DecodeNewTexture(backend: Renderer, path: string, textureType: TF.TextureType, flags: TF.Flags,
                          image: Option<ImageInfo>, handle: u32)
    returns (t: Texture, ok: bool)
    ensures fresh(t) && t.GetName() == path
    ensures ok <==> image.Some?
    ensures ok ==> t.textureType == textureType && t.loaded && t.textureHandle == handle
    ensures ok ==> t.flags == ChannelFlags(flags, image.value.channels)
  {
    t := backend.AllocateTexture(path, handle);
    t.SetTextureType(textureType);
    t.SetTextureFlags(flags);
    ok := t.LoadFromFile(path, image);
  }

  /** The texture CreateTexture allocates and fills on a miss. */
  method FillNewTexture(backend: Renderer, name: string, width: int, height: int, textureType: TF.TextureType,
                        flags: TF.Flags, handle: u32)
    returns (t: Texture)
    ensures fresh(t) && t.GetName() == name
    ensures t.textureType == textureType && t.flags == flags && t.loaded
    ensures t.upload == Some(UploadFor(width, height, flags)) && t.textureHandle == handle
  {
    t := backend.AllocateTexture(name, handle);
    t.SetTextureType(textureType);
    t.SetTextureFlags(flags);
    t.LoadDirect(width, height, textureType, flags);
  }

  /** The material CreateMaterialSimple builds for a texture, which is added
      with Material::AddTexture as written; on the fresh material's empty
      list the corrected AddTexture agrees (Materials.AddToEmptyAgrees). */
  method NewMaterial(diffuse: Texture, shader: Shader) returns (m: Material)
    ensures fresh(m)
    ensures m.GetName() == diffuse.GetName() && m.GetShader() == shader && m.textures == [diffuse]
  {
    m := new Material();
    m.SetName(diffuse.GetName());
    m.SetShader(shader);
    m.AddTexture(diffuse, false);
  }

  lemma MaterialNamesAppend(ms: seq<Material>, m: Material)
    ensures MaterialNames(ms + [m]) == MaterialNames(ms) + [m.name]
  {
    assert (ms + [m])[..|ms|] == ms;
  }

  lemma TextureNamesAppend(ts: seq<Texture>, t: Texture)
    ensures TextureNames(ts + [t]) == TextureNames(ts) + [t.GetName()]
  {
    assert (ts + [t])[..|ts|] == ts;
  }

  /** Appending a texture under a name not yet registered keeps the texture
      registry free of duplicate names, which is what LoadTexture and
      CreateTexture do on a miss. */
  lemma TextureRegistryStaysDistinct(ts: seq<Texture>, t: Texture)
    requires Distinct(TextureNames(ts)) && t.GetName() !in TextureNames(ts)
    ensures Distinct(TextureNames(ts + [t]))
  {
    TextureNamesAppend(ts, t);
    RegisteredKeepsDistinct(TextureNames(ts), t.GetName());
  }

  /** The same for the material registry and CreateMaterialSimple. */
  lemma MaterialRegistryStaysDistinct(ms: seq<Material>, m: Material)
    requires Distinct(MaterialNames(ms)) && m.GetName() !in MaterialNames(ms)
    ensures Distinct(MaterialNames(ms + [m]))
  {
    MaterialNamesAppend(ms, m);
    RegisteredKeepsDistinct(MaterialNames(ms), m.GetName());
  }

  /** FirstInactive finds slot i when it is inactive and every slot before
      it is active. */
  lemma FirstInactiveIs(slots: seq<Slot>, i: nat)
    requires i < |slots| && !slots[i].active
    requires forall j :: 0 <= j < i ==> slots[j].active
    ensures FirstInactive(slots) == Some(i)
  {
  }

  /** FindName finds position i when the name is there and nowhere before. */
  lemma FindNameIs(names: seq<string>, name: string, i: nat)
    requires i < |names| && names[i] == name
    requires forall j :: 0 <= j < i ==> names[j] != name
    ensures FindName(names, name) == Some(i)
  {
  }
}
