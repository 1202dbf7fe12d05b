/** The OpenGL 4.5 shader object: the file it was loaded from, the texts
    extracted from it, and one API object per permutation variant. The GLSL
    compiler and linker are not modelled; their verdicts are an oracle
    (`Driver`). */
module Shaders {
  import opened Options
  import opened TextStream
  import opened ShaderText

  /** The build state of one variant's program. */
  datatype BuildStatus = NotBuilt | Built | VertexError | FragmentError | LinkError | Deleted

  /** One permutation variant: its flags, the build state of its program and
      the final stage sources it was compiled from. */
  datatype ShaderObject = ShaderObject(
    shaderFlags: ShaderFlags,
    status: BuildStatus,
    vertexSource: string,
    fragmentSource: string)

  /** What `fs::exists` and the opened `std::ifstream` report for a path. */
  datatype ShaderFile = Missing | Unreadable | Readable(text: string)

  /** Whether the GLSL compiler accepts a vertex or fragment source and
      whether the linker accepts the pair. */
  datatype Driver = Driver(
    vertexCompiles: string -> bool,
    fragmentCompiles: string -> bool,
    links: (string, string) -> bool)

  /** Fresh variants for the given flag combinations, in order. */
  function Variants(combos: seq<ShaderFlags>): (objs: seq<ShaderObject>)
    ensures |objs| == |combos|
    ensures forall k :: 0 <= k < |objs| ==>
      objs[k].shaderFlags == combos[k] && objs[k].status == NotBuilt
  {
    if combos == [] then []
    else
      var prev := combos[..|combos| - 1];
      assert forall k :: 0 <= k < |prev| ==> prev[k] == combos[k];
      Variants(prev) + [ShaderObject(combos[|combos| - 1], NotBuilt, "", "")]
  }

  /** The final text of one stage: the version line, then the
      preprocessor block of the variant, then the stage's own text. */
  function StageSource(versionText: string, flags: ShaderFlags, stageText: string): string
  {
    versionText + DeterminePreprocessorFlags(flags) + stageText
  }

  /** The version line comes first and the stage text last, so a `#version`
      directive leads every compiled source. */
  lemma StageSourceLayout(versionText: string, flags: ShaderFlags, stageText: string)
    ensures var src := StageSource(versionText, flags, stageText);
      |src| == |versionText| + |DeterminePreprocessorFlags(flags)| + |stageText| &&
      src[..|versionText|] == versionText &&
      src[|versionText|..|src| - |stageText|] == DeterminePreprocessorFlags(flags) &&
      src[|src| - |stageText|..] == stageText
  {
    var src := StageSource(versionText, flags, stageText);
    assert src[..|versionText|] == versionText;
    assert src[|versionText|..|src| - |stageText|] == DeterminePreprocessorFlags(flags);
  }

  /** The outcome of building one variant: the vertex stage is checked
      first, then the fragment stage, then the link. */
  function BuildOutcome(driver: Driver, vertexSource: string, fragmentSource: string): BuildStatus
  {
    if !driver.vertexCompiles(vertexSource) then VertexError
    else if !driver.fragmentCompiles(fragmentSource) then FragmentError
    else if !driver.links(vertexSource, fragmentSource) then LinkError
    else Built
  }

  /** A variant builds exactly when both stages compile and the pair links;
      a vertex error is reported in preference to a fragment error. */
  lemma BuildOutcomeOrder(driver: Driver, vertexSource: string, fragmentSource: string)
    ensures var s := BuildOutcome(driver, vertexSource, fragmentSource);
      (s.Built? <==> driver.vertexCompiles(vertexSource) && driver.fragmentCompiles(fragmentSource) &&
                     driver.links(vertexSource, fragmentSource)) &&
      (s.VertexError? <==> !driver.vertexCompiles(vertexSource)) &&
      (s.FragmentError? <==> driver.vertexCompiles(vertexSource) && !driver.fragmentCompiles(fragmentSource)) &&
      !s.NotBuilt? && !s.Deleted?
  {
  }

  /** The texts every variant is compiled from. */
  datatype ShaderTexts = ShaderTexts(versionText: string, vertexText: string, fragmentText: string)

  /** A variant after Compile has processed it: its flags are kept and it
      records both final sources and their outcome. */
  function Build(o: ShaderObject, t: ShaderTexts, driver: Driver): ShaderObject
  {
    var v := StageSource(t.versionText, o.shaderFlags, t.vertexText);
    var f := StageSource(t.versionText, o.shaderFlags, t.fragmentText);
    ShaderObject(o.shaderFlags, BuildOutcome(driver, v, f), v, f)
  }

  predicate Builds(o: ShaderObject, t: ShaderTexts, driver: Driver)
  {
    Build(o, t, driver).status.Built?
  }

  /** The index of the first variant, from `k` on, whose build fails, or the
      number of variants when every one builds. */
  function FirstFailure(objs: seq<ShaderObject>, t: ShaderTexts, driver: Driver, k: nat): (stop: nat)
    requires k <= |objs|
    ensures k <= stop <= |objs|
    ensures forall j :: k <= j < stop ==> Builds(objs[j], t, driver)
    ensures stop < |objs| ==> !Builds(objs[stop], t, driver)
    decreases |objs| - k
  {
    if k == |objs| then k
    else if !Builds(objs[k], t, driver) then k
    else FirstFailure(objs, t, driver, k + 1)
  }

  /** The first failure depends only on the variants from `k` on. */
  lemma {:induction false} FirstFailureSame(a: seq<ShaderObject>, b: seq<ShaderObject>, t: ShaderTexts,
                                            driver: Driver, k: nat)
    requires k <= |a| == |b|
    requires forall j :: k <= j < |a| ==> a[j] == b[j]
    ensures FirstFailure(a, t, driver, k) == FirstFailure(b, t, driver, k)
    decreases |a| - k
  {
    if k < |a| {
      FirstFailureSame(a, b, t, driver, k + 1);
    }
  }

  /** Compile's loop from variant `k` on, with `current` the variant bound
      so far: the variants afterwards, whether all of them built, and the
      variant left current. */
  function CompileFrom(objs: seq<ShaderObject>, t: ShaderTexts, driver: Driver, k: nat,
                       current: Option<nat>): (r: (seq<ShaderObject>, bool, Option<nat>))
    requires k <= |objs|
    ensures |r.0| == |objs|
    decreases |objs| - k
  {
    if k == |objs| then (objs, true, current)
    else
      var b := Build(objs[k], t, driver);
      if !b.status.Built? then (objs[k := b], false, Some(k))
      else CompileFrom(objs[k := b], t, driver, k + 1, Some(k))
  }

  /** Compile's loop succeeds exactly when no variant from `k` on fails. */
  lemma {:induction false} CompileFromSucceeds(objs: seq<ShaderObject>, t: ShaderTexts, driver: Driver,
                                               k: nat, current: Option<nat>)
    requires k <= |objs|
    ensures CompileFrom(objs, t, driver, k, current).1 <==> FirstFailure(objs, t, driver, k) == |objs|
    decreases |objs| - k
  {
    if k < |objs| {
      var b := Build(objs[k], t, driver);
      var next := objs[k := b];
      if b.status.Built? {
        CompileFromSucceeds(next, t, driver, k + 1, Some(k));
        FirstFailureSame(objs, next, t, driver, k + 1);
      }
    }
  }

  /** Every variant from `k` up to and including the first failing one is
      rebuilt; the others are untouched. */
  lemma {:induction false} CompileFromContents(objs: seq<ShaderObject>, t: ShaderTexts, driver: Driver,
                                               k: nat, current: Option<nat>, j: nat)
    requires k <= |objs| && j < |objs|
    ensures CompileFrom(objs, t, driver, k, current).0[j]
         == if k <= j <= FirstFailure(objs, t, driver, k) then Build(objs[j], t, driver) else objs[j]
    decreases |objs| - k
  {
    if k < |objs| {
      var b := Build(objs[k], t, driver);
      var next := objs[k := b];
      if b.status.Built? {
        CompileFromContents(next, t, driver, k + 1, Some(k), j);
        FirstFailureSame(objs, next, t, driver, k + 1);
      }
    }
  }

  /** The variant left current is the failing one, or the last one when all
      built, or the previous one when there is none. */
  lemma {:induction false} CompileFromCurrent(objs: seq<ShaderObject>, t: ShaderTexts, driver: Driver,
                                              k: nat, current: Option<nat>)
    requires k <= |objs|
    ensures CompileFrom(objs, t, driver, k, current).2
         == if k == |objs| then current
            else if FirstFailure(objs, t, driver, k) < |objs| then Some(FirstFailure(objs, t, driver, k))
            else Some(|objs| - 1)
    decreases |objs| - k
  {
    if k < |objs| {
      var b := Build(objs[k], t, driver);
      var next := objs[k := b];
      if b.status.Built? {
        CompileFromCurrent(next, t, driver, k + 1, Some(k));
        FirstFailureSame(objs, next, t, driver, k + 1);
      }
    }
  }

  /** Compile rebuilds variants in place: their number and flags stay. */
  lemma {:induction false} CompileKeepsFlags(objs: seq<ShaderObject>, t: ShaderTexts, driver: Driver,
                                             k: nat, current: Option<nat>)
    requires k <= |objs|
    ensures forall j :: 0 <= j < |objs| ==>
      CompileFrom(objs, t, driver, k, current).0[j].shaderFlags == objs[j].shaderFlags
    decreases |objs| - k
  {
    if k < |objs| {
      var b := Build(objs[k], t, driver);
      if b.status.Built? {
        CompileKeepsFlags(objs[k := b], t, driver, k + 1, Some(k));
      }
    }
  }

  /** The variants with every program deleted. */
  function AllDeleted(objs: seq<ShaderObject>): seq<ShaderObject>
  {
    seq(|objs|, k requires 0 <= k < |objs| => objs[k].(status := Deleted))
  }

  /** The deletion loop of Reload: every program is deleted, the variants stay. */
  method DeletePrograms(objs: seq<ShaderObject>) returns (r: seq<ShaderObject>)
    ensures r == AllDeleted(objs)
    ensures |r| == |objs|
    ensures forall k :: 0 <= k < |r| ==> r[k] == objs[k].(status := Deleted)
    ensures FlagsOf(r) == FlagsOf(objs)
  {
    r := objs;
    var i := 0;
    while i < |r|
      invariant i <= |r| == |objs|
      invariant forall k :: 0 <= k < i ==> r[k] == objs[k].(status := Deleted)
      invariant forall k :: i <= k < |r| ==> r[k] == objs[k]
    {
      r := r[i := r[i].(status := Deleted)];
      i := i + 1;
    }
  }

  /** Compile from the first variant on. */
  lemma CompileOutcome(objs: seq<ShaderObject>, t: ShaderTexts, driver: Driver, current: Option<nat>)
    ensures var r := CompileFrom(objs, t, driver, 0, current);
      var stop := FirstFailure(objs, t, driver, 0);
      (r.1 <==> forall j :: 0 <= j < |objs| ==> Builds(objs[j], t, driver)) &&
      (forall j :: 0 <= j < |objs| ==> r.0[j] == if j <= stop then Build(objs[j], t, driver) else objs[j]) &&
      (forall j :: 0 <= j < |objs| ==> r.0[j].shaderFlags == objs[j].shaderFlags) &&
      r.2 == (if objs == [] then current else if stop < |objs| then Some(stop) else Some(|objs| - 1))
  {
    CompileFromSucceeds(objs, t, driver, 0, current);
    CompileFromCurrent(objs, t, driver, 0, current);
    forall j | 0 <= j < |objs|
      ensures CompileFrom(objs, t, driver, 0, current).0[j]
           == if j <= FirstFailure(objs, t, driver, 0) then Build(objs[j], t, driver) else objs[j]
    {
      CompileFromContents(objs, t, driver, 0, current, j);
    }
  }

  /** The loop of Compile over the variants, on values. */
  method BuildVariants(objs: seq<ShaderObject>, t: ShaderTexts, driver: Driver, current: Option<nat>)
    returns (built: seq<ShaderObject>, ok: bool, last: Option<nat>)
    ensures (built, ok, last) == CompileFrom(objs, t, driver, 0, current)
  {
    built, last := objs, current;
    var i := 0;
    while i < |built|
      invariant i <= |built|
      invariant CompileFrom(built, t, driver, i, last) == CompileFrom(objs, t, driver, 0, current)
    {
      var variant := built[i];
      var finalVertexText := StageSource(t.versionText, variant.shaderFlags, t.vertexText);
      var finalFragmentText := StageSource(t.versionText, variant.shaderFlags, t.fragmentText);
      last := Some(i);
      var status := BuildOutcome(driver, finalVertexText, finalFragmentText);
      built := built[i := ShaderObject(variant.shaderFlags, status, finalVertexText, finalFragmentText)];
      if !status.Built? {
        return built, false, last;
      }
      i := i + 1;
    }
    return built, true, last;
  }

  /** The index of the first variant with exactly the flags `f`. */
  function FindVariant(objs: seq<ShaderObject>, f: ShaderFlags): (r: Option<nat>)
    ensures r.Some? ==> r.value < |objs| && objs[r.value].shaderFlags == f
    ensures r.Some? ==> forall j :: 0 <= j < r.value ==> objs[j].shaderFlags != f
    ensures r.None? ==> forall j :: 0 <= j < |objs| ==> objs[j].shaderFlags != f
  {
    if objs == [] then None
    else if objs[0].shaderFlags == f then Some(0)
    else match FindVariant(objs[1..], f)
      case None => None
      case Some(j) => Some(j + 1)
  }

  /** One pass of PopulateShaderObjects' loop keeps its two invariants. */
  lemma PopulateStep(s: ShaderFlags, k: nat, registered: seq<ShaderFlags>,
                     objects: seq<ShaderObject>, base: seq<ShaderObject>)
    requires k < |FlagCombinations|
    requires registered == SupportedPrefix(s, k)
    requires objects == base + Variants(registered)
    ensures SupportedPrefix(s, k + 1) == registered + Keep(s, FlagCombinations[k])
    ensures (if Supports(s, FlagCombinations[k]) then objects + [ShaderObject(FlagCombinations[k], NotBuilt, "", "")] else objects)
         == base + Variants(registered + Keep(s, FlagCombinations[k]))
  {
    VariantsAppend(registered, s, FlagCombinations[k]);
  }

  lemma SupportedCombinationsUnfold(supported: ShaderFlags)
    ensures SupportedCombinations(supported) == SupportedPrefix(supported, |FlagCombinations|)
  {
  }

  lemma VariantsAppend(registered: seq<ShaderFlags>, supported: ShaderFlags, combo: ShaderFlags)
    ensures Variants(registered + Keep(supported, combo))
         == Variants(registered) + (if Supports(supported, combo) then [ShaderObject(combo, NotBuilt, "", "")] else [])
  {
    if Supports(supported, combo) {
      assert (registered + [combo])[..|registered|] == registered;
    } else {
      assert registered + [] == registered;
    }
  }

  /** For the variants registered for `supported`, Bind's two tests together
      find a variant exactly for the registered combinations. */
  lemma BindFindsRegisteredVariants(supported: ShaderFlags, f: ShaderFlags)
    ensures (Supports(supported, f) && FindVariant(Variants(SupportedCombinations(supported)), f).Some?)
        <==> f in SupportedCombinations(supported)
  {
    var cs := SupportedCombinations(supported);
    var objs := Variants(cs);
    SupportsIsSubset(supported, f);
    if f in cs {
      var k :| 0 <= k < |cs| && cs[k] == f;
      assert objs[k].shaderFlags == f;
      assert FindVariant(objs, f).Some?;
    }
  }

  /** A skinned variant is never registered for a scanned file, so binding
      with CanSkin always falls back to program 0. */
  lemma SkinnedVariantsNeverRegistered(text: string, f: ShaderFlags)
    requires f & CanSkin != 0
    ensures f !in SupportedCombinations(MetaFlags(Scan(text, 0)))
  {
  }

  /** The loop of PopulateShaderObjects: walks the combination table and
      appends a fresh variant for each entry whose bits are all supported. */
  method AppendVariants(existing: seq<ShaderObject>, supported: ShaderFlags) returns (objects: seq<ShaderObject>)
    ensures objects == existing + Variants(SupportedCombinations(supported))
  {
    objects := existing;
    var k := 0;
    while k < |FlagCombinations|
      invariant k <= |FlagCombinations|
      invariant objects == existing + Variants(SupportedPrefix(supported, k))
    {
      var flagCombo := FlagCombinations[k];
      PopulateStep(supported, k, SupportedPrefix(supported, k), objects, existing);
      // the xor test `(flagCombo & supported) ^ flagCombo == 0`
      if Supports(supported, flagCombo) {
        objects := objects + [ShaderObject(flagCombo, NotBuilt, "", "")];
      }
      k := k + 1;
    }
    SupportedCombinationsUnfold(supported);
  }

  /** The stage texts Load reads from `text` into a shader whose version
      text was `version`. */
  function LoadedTexts(text: string, version: string): ShaderTexts
  {
    ShaderTexts(VersionText(Scan(text, 0), version),
                JoinLines(SectionLines(Lines(text), "vertex")),
                JoinLines(SectionLines(Lines(text), "fragment")))
  }

  /** Whether Load followed by Compile succeeds on a shader holding the
      variants `objs` and the version text `version`: the file is readable
      and every variant, the old ones and those the file's meta flags add,
      builds from the texts read. */
  predicate LoadCompiles(objs: seq<ShaderObject>, version: string, file: ShaderFile, driver: Driver)
  {
    file.Readable? &&
    var loaded := objs + Variants(SupportedCombinations(MetaFlags(Scan(file.text, 0))));
    forall j :: 0 <= j < |loaded| ==> Builds(loaded[j], LoadedTexts(file.text, version), driver)
  }

  /** The texts Reload leaves: those Load reads from a readable file, the
      old ones otherwise. */
  function ReloadedTexts(file: ShaderFile, t: ShaderTexts): ShaderTexts
  {
    if file.Readable? then LoadedTexts(file.text, t.versionText) else t
  }

  /** The variants Reload hands to Compile: every old one with its program
      deleted, then those a readable file's meta flags add. */
  function ReloadedVariants(objs: seq<ShaderObject>, file: ShaderFile): seq<ShaderObject>
  {
    AllDeleted(objs) + (if file.Readable? then Variants(SupportedCombinations(MetaFlags(Scan(file.text, 0)))) else [])
  }

  /** The message Load leaves when it reloads `path` from `file`. */
  function ReloadMessage(path: string, file: ShaderFile, previous: string): string
  {
    match file
    case Missing => "Shader '" + path + "' does not exist"
    case Unreadable => "Shader '" + path + "' is bad or empty"
    case Readable(_) => previous
  }

  class Shader {
    var name: string
    var fileName: string
    var errorMessage: string
    var versionText: string
    var vertexText: string
    var fragmentText: string
    var supportedShaderFlags: ShaderFlags
    var apiObjects: seq<ShaderObject>
    /** The variant last compiled or bound, as an index into `apiObjects`. */
    var currentObject: Option<nat>

    constructor ()
      ensures name == "Default" && fileName == "" && errorMessage == "OK"
      ensures versionText == "" && vertexText == "" && fragmentText == ""
      ensures supportedShaderFlags == 0 && apiObjects == [] && currentObject == None
    {
      name := "Default";
      fileName := "";
      errorMessage := "OK";
      versionText := "";
      vertexText := "";
      fragmentText := "";
      supportedShaderFlags := 0;
      apiObjects := [];
      currentObject := None;
    }

    function GetName(): string
      reads this
    {
      name
    }

    /** Appends one fresh variant per table combination whose bits are all
        in `supportedShaderFlags`; existing variants are kept. */
    method PopulateShaderObjects()
      modifies this
      ensures apiObjects == old(apiObjects) + Variants(SupportedCombinations(supportedShaderFlags))
      ensures supportedShaderFlags == old(supportedShaderFlags) && currentObject == old(currentObject)
      ensures name == old(name) && fileName == old(fileName) && errorMessage == old(errorMessage)
      ensures versionText == old(versionText) && vertexText == old(vertexText) && fragmentText == old(fragmentText)
    {
      apiObjects := AppendVariants(apiObjects, supportedShaderFlags);
    }

    /** Shader::Load with the file system's answer for `path` as a parameter. */
    method Load(path: string, file: ShaderFile) returns (ok: bool)
      modifies this
      ensures ok <==> file.Readable?
      ensures file.Missing? ==> errorMessage == "Shader '" + path + "' does not exist"
      ensures file.Missing? ==> fileName == old(fileName) && name == old(name)
      ensures !file.Missing? ==> fileName == path && name == path
      ensures file.Unreadable? ==> errorMessage == "Shader '" + path + "' is bad or empty"
      ensures !file.Readable? ==> apiObjects == old(apiObjects) && versionText == old(versionText)
      ensures !file.Readable? ==> supportedShaderFlags == old(supportedShaderFlags)
      ensures !file.Readable? ==> vertexText == old(vertexText) && fragmentText == old(fragmentText)
      ensures file.Readable? ==> errorMessage == old(errorMessage)
      ensures file.Readable? ==> supportedShaderFlags == MetaFlags(Scan(file.text, 0))
      ensures file.Readable? ==> versionText == VersionText(Scan(file.text, 0), old(versionText))
      ensures file.Readable? ==> apiObjects == old(apiObjects) + Variants(SupportedCombinations(supportedShaderFlags))
      ensures file.Readable? ==> vertexText == JoinLines(SectionLines(Lines(file.text), "vertex"))
      ensures file.Readable? ==> fragmentText == JoinLines(SectionLines(Lines(file.text), "fragment"))
      ensures currentObject == old(currentObject)
    {
      if file.Missing? {
        errorMessage := "Shader '" + path + "' does not exist";
        return false;
      }
      fileName := path;
      name := path;
      if file.Unreadable? {
        errorMessage := "Shader '" + path + "' is bad or empty";
        return false;
      }
      ReadMeta(file.text);
      PopulateShaderObjects();
      ReadSections(file.text);
      return true;
    }

    /** Shader::ExtractShaderMeta on the member state. */
    method ReadMeta(text: string)
      modifies this
      ensures supportedShaderFlags == MetaFlags(Scan(text, 0))
      ensures versionText == VersionText(Scan(text, 0), old(versionText))
      ensures apiObjects == old(apiObjects) && currentObject == old(currentObject)
      ensures name == old(name) && fileName == old(fileName) && errorMessage == old(errorMessage)
      ensures vertexText == old(vertexText) && fragmentText == old(fragmentText)
    {
      supportedShaderFlags, versionText := ExtractShaderMeta(text, versionText);
    }

    /** The two ExtractShaderText calls of Load, on the member state. */
    method ReadSections(text: string)
      modifies this
      ensures vertexText == JoinLines(SectionLines(Lines(text), "vertex"))
      ensures fragmentText == JoinLines(SectionLines(Lines(text), "fragment"))
      ensures apiObjects == old(apiObjects) && currentObject == old(currentObject)
      ensures supportedShaderFlags == old(supportedShaderFlags) && versionText == old(versionText)
      ensures name == old(name) && fileName == old(fileName) && errorMessage == old(errorMessage)
    {
      var lines := Lines(text);
      vertexText := ExtractShaderText("vertex", lines);
      fragmentText := ExtractShaderText("fragment", lines);
    }

    /** Shader::Compile: builds the variants in order and stops at the first
        one that fails to compile or link (see CompileOutcome). The error
        text is only printed, so `errorMessage` is kept. */
    method Compile(driver: Driver) returns (ok: bool)
      modifies this
      ensures (apiObjects, ok, currentObject)
           == CompileFrom(old(apiObjects), ShaderTexts(versionText, vertexText, fragmentText), driver, 0, old(currentObject))
      ensures name == old(name) && fileName == old(fileName) && errorMessage == old(errorMessage)
      ensures versionText == old(versionText) && vertexText == old(vertexText) && fragmentText == old(fragmentText)
      ensures supportedShaderFlags == old(supportedShaderFlags)
    {
      apiObjects, ok, currentObject := BuildVariants(apiObjects, ShaderTexts(versionText, vertexText, fragmentText), driver, currentObject);
    }

    /** Shader::Bind: when every requested bit is supported, binds the first
        variant with exactly the requested flags; otherwise (or when none
        has them) binds program 0, reported as None. */
    method Bind(shaderFlags: ShaderFlags) returns (bound: Option<nat>)
      modifies this
      ensures bound == (if Supports(supportedShaderFlags, shaderFlags) then FindVariant(apiObjects, shaderFlags) else None)
      ensures bound.Some? ==> currentObject == bound
      ensures bound.None? ==> currentObject == old(currentObject)
      ensures apiObjects == old(apiObjects) && supportedShaderFlags == old(supportedShaderFlags)
      ensures name == old(name) && fileName == old(fileName) && errorMessage == old(errorMessage)
      ensures versionText == old(versionText) && vertexText == old(vertexText) && fragmentText == old(fragmentText)
    {
      if (supportedShaderFlags & shaderFlags) ^ shaderFlags == 0 {
        var k := 0;
        while k < |apiObjects|
          invariant k <= |apiObjects|
          invariant forall j :: 0 <= j < k ==> apiObjects[j].shaderFlags != shaderFlags
        {
          if apiObjects[k].shaderFlags == shaderFlags {
            currentObject := Some(k);
            return Some(k);
          }
          k := k + 1;
        }
      }
      return None;
    }

    /** Shader::Reload: deletes every variant's program, loads the file again
        from the shader's own file name (which, when readable, replaces the
        meta flags and texts and appends a fresh set of variants after the
        old ones) and compiles everything from variant 0 with the texts it
        then holds, whether or not the load succeeded. The old variants keep
        their flags, and a readable file adds one variant per supported
        combination after them. */
    method Reload(file: ShaderFile, driver: Driver)
      modifies this
      ensures var t := ReloadedTexts(file, ShaderTexts(old(versionText), old(vertexText), old(fragmentText)));
        var r := CompileFrom(ReloadedVariants(old(apiObjects), file), t, driver, 0, old(currentObject));
        ShaderTexts(versionText, vertexText, fragmentText) == t && apiObjects == r.0 && currentObject == r.2
      ensures supportedShaderFlags == if file.Readable? then MetaFlags(Scan(file.text, 0)) else old(supportedShaderFlags)
      ensures fileName == old(fileName) && name == (if file.Missing? then old(name) else old(fileName))
      ensures errorMessage == ReloadMessage(old(fileName), file, old(errorMessage))
      ensures FlagsOf(apiObjects) == FlagsOf(old(apiObjects))
        + (if file.Readable? then SupportedCombinations(MetaFlags(Scan(file.text, 0))) else [])
    {
      ghost var before := apiObjects;
      apiObjects := DeletePrograms(apiObjects);
      ghost var deleted := apiObjects;
      var loaded := Load(fileName, file);
      ghost var loadedObjs := apiObjects;
      CompileKeepsFlags(apiObjects, ShaderTexts(versionText, vertexText, fragmentText), driver, 0, currentObject);
      var compiled := Compile(driver);
      assert FlagsOf(apiObjects) == FlagsOf(loadedObjs);
      ghost var added := if file.Readable? then SupportedCombinations(MetaFlags(Scan(file.text, 0))) else [];
      ReloadFlags(before, deleted, loadedObjs, added);
    }
  }

  /** Two variant lists with the same flags, position by position. */
  predicate SameFlags(a: seq<ShaderObject>, b: seq<ShaderObject>)
  {
    |a| == |b| && forall j :: 0 <= j < |a| ==> a[j].shaderFlags == b[j].shaderFlags
  }

  /** The flags of the variants, in order. */
  function FlagsOf(objs: seq<ShaderObject>): (fs: seq<ShaderFlags>)
    ensures |fs| == |objs| && forall k :: 0 <= k < |objs| ==> fs[k] == objs[k].shaderFlags
  {
    seq(|objs|, k requires 0 <= k < |objs| => objs[k].shaderFlags)
  }

  /** Reload's bookkeeping: deleting keeps every variant's flags, and
      loading appends the variants of `added` after them. */
  lemma ReloadFlags(before: seq<ShaderObject>, deleted: seq<ShaderObject>, loaded: seq<ShaderObject>,
                    added: seq<ShaderFlags>)
    requires FlagsOf(deleted) == FlagsOf(before)
    requires loaded == deleted + Variants(added)
    ensures FlagsOf(loaded) == FlagsOf(before) + added
  {
    assert FlagsOf(Variants(added)) == added;
    assert FlagsOf(deleted + Variants(added)) == FlagsOf(deleted) + FlagsOf(Variants(added));
  }
}
