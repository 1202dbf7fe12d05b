/** The pure half of the OpenGL 4.5 shader: the permutation flags and their
    fixed table of combinations, the `#supports` / `#version` scan of a
    shader file, the `#section` extractor and the preprocessor block that
    each variant is compiled with. Every scan reads the whole file text from
    its start, which is what seeking to the beginning and back again
    amounts to. */
module ShaderText {
  import opened Options
  import opened TextStream

  type ShaderFlags = bv16

  /** Three distinct bits; their values are not shown in the repository. */
  const Normal: ShaderFlags := 1
  const Instanced: ShaderFlags := 2
  const CanSkin: ShaderFlags := 4

  /** `ShaderFlagCombinations`, in table order. */
  const FlagCombinations: seq<ShaderFlags> :=
    [Normal, Normal | Instanced, Normal | CanSkin, Normal | Instanced | CanSkin]

  /** The test of PopulateShaderObjects and Bind, as written: the bits of
      `combo` that `supported` has, xor-ed with `combo`, leave nothing. */
  predicate Supports(supported: ShaderFlags, combo: ShaderFlags)
  {
    (combo & supported) ^ combo == 0
  }

  /** The xor test is the subset test. */
  lemma SupportsIsSubset(supported: ShaderFlags, combo: ShaderFlags)
    ensures Supports(supported, combo) <==> combo | supported == supported
  {
  }

  function Keep(supported: ShaderFlags, combo: ShaderFlags): seq<ShaderFlags>
  {
    if Supports(supported, combo) then [combo] else []
  }

  /** The entries among the first `k` of the table that `supported` covers, in table order. */
  function SupportedPrefix(supported: ShaderFlags, k: nat): seq<ShaderFlags>
    requires k <= |FlagCombinations|
  {
    if k == 0 then [] else SupportedPrefix(supported, k - 1) + Keep(supported, FlagCombinations[k - 1])
  }

  lemma {:induction false} SupportedPrefixMembers(supported: ShaderFlags, k: nat)
    requires k <= |FlagCombinations|
    ensures forall c :: c in SupportedPrefix(supported, k) <==>
      c in FlagCombinations[..k] && Supports(supported, c)
  {
    if k > 0 {
      SupportedPrefixMembers(supported, k - 1);
      assert FlagCombinations[..k] == FlagCombinations[..k - 1] + [FlagCombinations[k - 1]];
    }
  }

  /** The variants PopulateShaderObjects registers for the supported flags:
      exactly the table entries whose bits are all supported. */
  function SupportedCombinations(supported: ShaderFlags): (cs: seq<ShaderFlags>)
    ensures forall c :: c in cs <==> c in FlagCombinations && c | supported == supported
  {
    forall c | c in FlagCombinations ensures Supports(supported, c) <==> c | supported == supported {
      SupportsIsSubset(supported, c);
    }
    SupportedPrefixMembers(supported, |FlagCombinations|);
    assert FlagCombinations[..|FlagCombinations|] == FlagCombinations;
    SupportedPrefix(supported, |FlagCombinations|)
  }

  /** The registered variants follow the table's order, each kept exactly
      when all of its bits are supported. */
  lemma SupportedCombinationsInOrder(supported: ShaderFlags)
    ensures SupportedCombinations(supported)
         == ((Keep(supported, Normal) + Keep(supported, Normal | Instanced))
          + Keep(supported, Normal | CanSkin)) + Keep(supported, Normal | Instanced | CanSkin)
  {
    assert SupportedPrefix(supported, 1) == Keep(supported, Normal);
    assert SupportedPrefix(supported, 2) == Keep(supported, Normal) + Keep(supported, Normal | Instanced);
    assert SupportedPrefix(supported, 3) == SupportedPrefix(supported, 2) + Keep(supported, Normal | CanSkin);
    assert SupportedPrefix(supported, 4) == SupportedPrefix(supported, 3) + Keep(supported, Normal | Instanced | CanSkin);
  }

  /** Flags that hold Normal but not CanSkin, which is every result of the
      meta scan, give the plain variant, plus the instanced one when asked. */
  lemma CombinationsForScannedFlags(supported: ShaderFlags)
    requires supported & Normal != 0 && supported & CanSkin == 0
    ensures SupportedCombinations(supported)
         == (if supported & Instanced != 0 then [Normal, Normal | Instanced] else [Normal])
  {
    SupportedCombinationsInOrder(supported);
  }

  /** What one pass of ExtractShaderMeta's loop reads: the argument of a
      `#supports` keyword (when one could be read), and the rest of the line
      after a `#version` keyword (when the keyword was seen). */
  datatype Statement = Statement(supportsArg: Option<string>, versionRest: Option<string>)

  /** The `#supports` part of one pass, after the first word `first` was
      read: the current token, the position after it and the argument read.
      When no argument can be read the stream is exhausted and the token
      stays "#supports". */
  function SupportsStep(s: string, first: WordRead): (r: (string, nat, Option<string>))
    requires first.Word? && first.next <= |s|
    ensures first.next <= r.1 <= |s|
  {
    if first.word != "#supports" then (first.word, first.next, None)
    else match ReadWord(s, first.next)
      case NoWord => (first.word, |s|, None)
      case Word(arg, next) => (arg, next, Some(arg))
  }

  /** The `#version` part of one pass, with the current token at position
      `q`: the rest of the line when the token is "#version". At the very end
      of the file the stream is at end-of-file and `getline` fails, leaving
      the token as it was. */
  function VersionStep(s: string, token: string, q: nat): (r: (Option<string>, nat))
    requires q <= |s|
    ensures q <= r.1 <= |s|
  {
    if token != "#version" then (None, q)
    else if q == |s| then (Some(token), |s|)
    else
      var line := GetLine(s, q);
      (Some(line.0), line.1)
  }

  /** One pass of the loop from position `p`, where a first word is known to
      be readable. */
  function ReadStatement(s: string, p: nat): (r: (Statement, nat))
    requires p <= |s| && ReadWord(s, p).Word?
    ensures p < r.1 <= |s|
  {
    var sup := SupportsStep(s, ReadWord(s, p));
    var ver := VersionStep(s, sup.0, sup.1);
    (Statement(sup.2, ver.0), ver.1)
  }

  /** Every pass of the loop over the text from position `p`. */
  function Scan(s: string, p: nat): seq<Statement>
    requires p <= |s|
    decreases |s| - p
  {
    match ReadWord(s, p)
    case NoWord => []
    case Word(_, _) =>
      var r := ReadStatement(s, p);
      [r.0] + Scan(s, r.1)
  }

  predicate IsInstancingArg(arg: Option<string>)
  {
    arg == Some("instancing") || arg == Some("batching")
  }

  /** The flags accumulated over the passes, starting from Normal. */
  function MetaFlags(stmts: seq<Statement>): (f: ShaderFlags)
    ensures f & Normal != 0
    ensures f & CanSkin == 0
    ensures f & Instanced != 0 <==> exists k :: 0 <= k < |stmts| && IsInstancingArg(stmts[k].supportsArg)
    ensures f == Normal || f == Normal | Instanced
  {
    if stmts == [] then Normal
    else
      var prev := MetaFlags(stmts[..|stmts| - 1]);
      assert forall k :: 0 <= k < |stmts| - 1 ==> stmts[..|stmts| - 1][k] == stmts[k];
      if IsInstancingArg(stmts[|stmts| - 1].supportsArg) then prev | Instanced else prev
  }

  function VersionLine(rest: string): string
  {
    "#version " + rest + "\n"
  }

  /** No pass read a `#version` line. */
  predicate NoVersion(stmts: seq<Statement>)
  {
    forall k :: 0 <= k < |stmts| ==> stmts[k].versionRest.None?
  }

  /** Pass `k` read the last `#version` line. */
  predicate LastVersionAt(stmts: seq<Statement>, k: int)
  {
    0 <= k < |stmts| && stmts[k].versionRest.Some? &&
    forall j :: k < j < |stmts| ==> stmts[j].versionRest.None?
  }

  /** The version text after the passes: the line of the last `#version`
      keyword, or the text it had before when there was none. */
  function VersionText(stmts: seq<Statement>, initial: string): (v: string)
    ensures NoVersion(stmts) ==> v == initial
    ensures forall k :: LastVersionAt(stmts, k) ==> v == VersionLine(stmts[k].versionRest.value)
  {
    if stmts == [] then initial
    else
      var last := stmts[|stmts| - 1];
      var prev := VersionText(stmts[..|stmts| - 1], initial);
      if last.versionRest.Some? then VersionLine(last.versionRest.value)
      else
        assert NoVersion(stmts) ==> NoVersion(stmts[..|stmts| - 1]);
        assert forall k :: LastVersionAt(stmts, k) ==> LastVersionAt(stmts[..|stmts| - 1], k);
        prev
  }

  /** The passes already made, followed by those still to come, are all the passes. */
  predicate ScannedUpTo(text: string, p: nat, seen: seq<Statement>)
  {
    p <= |text| && seen + Scan(text, p) == Scan(text, 0)
  }

  lemma ScanEnds(text: string, p: nat, seen: seq<Statement>)
    requires ScannedUpTo(text, p, seen) && ReadWord(text, p).NoWord?
    ensures seen == Scan(text, 0)
  {
    assert Scan(text, p) == [];
    assert seen + [] == seen;
  }

  lemma ScanStep(text: string, p: nat, seen: seq<Statement>)
    requires ScannedUpTo(text, p, seen) && ReadWord(text, p).Word?
    ensures ScannedUpTo(text, ReadStatement(text, p).1, seen + [ReadStatement(text, p).0])
  {
    var r := ReadStatement(text, p);
    ScanUnfold(text, p);
    Regroup(seen, [r.0], Scan(text, r.1));
  }

  lemma ScanUnfold(text: string, p: nat)
    requires p <= |text| && ReadWord(text, p).Word?
    ensures Scan(text, p) == [ReadStatement(text, p).0] + Scan(text, ReadStatement(text, p).1)
  {
  }

  lemma Regroup<T>(a: seq<T>, b: seq<T>, c: seq<T>)
    ensures a + (b + c) == (a + b) + c
  {
  }

  /** Appending one pass updates the flags and the version text as the loop body does. */
  lemma AccumulateStep(seen: seq<Statement>, st: Statement, initial: string)
    ensures MetaFlags(seen + [st]) == MetaFlags(seen) | (if IsInstancingArg(st.supportsArg) then Instanced else 0)
    ensures VersionText(seen + [st], initial)
         == if st.versionRest.Some? then VersionLine(st.versionRest.value) else VersionText(seen, initial)
  {
    assert (seen + [st])[..|seen|] == seen;
  }

  /** The stream reads of one pass of ExtractShaderMeta's loop, from a
      position where the first `>>` succeeds. */
  method ReadPass(text: string, p: nat) returns (st: Statement, q: nat)
    requires p <= |text| && ReadWord(text, p).Word?
    ensures (st, q) == ReadStatement(text, p)
  {
    var read := ReadWord(text, p);
    var token := read.word;
    q := read.next;
    var arg: Option<string> := None;
    if token == "#supports" {
      var argRead := ReadWord(text, q);
      if argRead.Word? {
        token, q := argRead.word, argRead.next;
        arg := Some(token);
      } else {
        q := |text|;
      }
    }
    assert SupportsStep(text, read) == (token, q, arg);
    ghost var beforeVersion := (token, q);
    var rest: Option<string> := None;
    if token == "#version" {
      if q < |text| {
        var line := GetLine(text, q);
        token, q := line.0, line.1;
      }
      rest := Some(token);
    }
    assert VersionStep(text, beforeVersion.0, beforeVersion.1) == (rest, q);
    st := Statement(arg, rest);
  }

  /** Shader::ExtractShaderMeta over the whole text, with the version text
      passed in by reference as `versionText`. */
  method ExtractShaderMeta(text: string, versionText: string) returns (flags: ShaderFlags, newVersionText: string)
    ensures flags == MetaFlags(Scan(text, 0))
    ensures newVersionText == VersionText(Scan(text, 0), versionText)
  {
    flags := Normal;
    newVersionText := versionText;
    var p := 0;
    ghost var seen: seq<Statement> := [];
    while ReadWord(text, p).Word?
      invariant ScannedUpTo(text, p, seen)
      invariant flags == MetaFlags(seen)
      invariant newVersionText == VersionText(seen, versionText)
      decreases |text| - p
    {
      var st, q := ReadPass(text, p);
      if IsInstancingArg(st.supportsArg) {
        flags := flags | Instanced;
      }
      if st.versionRest.Some? {
        newVersionText := VersionLine(st.versionRest.value);
      }
      ScanStep(text, p, seen);
      AccumulateStep(seen, st, versionText);
      seen := seen + [st];
      p := q;
    }
    ScanEnds(text, p, seen);
  }

  /** Lines that mention `#supports` are skipped by the section extractor. */
  predicate Visible(line: string)
  {
    !Contains(line, "#supports")
  }

  /** A line that opens the section `name`: it mentions `#section`, and
      `name` occurs at or after that mention. */
  predicate IsOpening(line: string, name: string)
  {
    var at := FindFrom(line, "#section", 0);
    at.Some? && FindFrom(line, name, at.value).Some?
  }

  predicate IsEnd(line: string)
  {
    Contains(line, "#endsection")
  }

  /** The visible lines, in order (defined from the back, as a loop sees them). */
  function VisibleLines(ls: seq<string>): (ks: seq<string>)
    ensures |ks| <= |ls|
    ensures forall k :: 0 <= k < |ks| ==> Visible(ks[k])
  {
    if ls == [] then []
    else VisibleLines(ls[..|ls| - 1]) + (if Visible(ls[|ls| - 1]) then [ls[|ls| - 1]] else [])
  }

  lemma {:induction false} VisibleLinesAppend(a: seq<string>, b: seq<string>)
    ensures VisibleLines(a + b) == VisibleLines(a) + VisibleLines(b)
    decreases |b|
  {
    if b != [] {
      var b' := b[..|b| - 1];
      assert (a + b)[..|a + b| - 1] == a + b';
      VisibleLinesAppend(a, b');
    } else {
      assert a + b == a;
    }
  }

  /** Index of the first line that opens section `name`. */
  function FirstOpening(ks: seq<string>, name: string): (o: Option<nat>)
    ensures o.Some? ==> o.value < |ks| && IsOpening(ks[o.value], name)
    ensures o.Some? ==> forall k :: 0 <= k < o.value ==> !IsOpening(ks[k], name)
    ensures o.None? ==> forall k :: 0 <= k < |ks| ==> !IsOpening(ks[k], name)
  {
    if ks == [] then None
    else if IsOpening(ks[0], name) then Some(0)
    else match FirstOpening(ks[1..], name)
      case None => None
      case Some(o) => Some(o + 1)
  }

  /** Index of the first line that ends a section (or the number of lines). */
  function FirstEnd(ks: seq<string>): (e: nat)
    ensures e <= |ks|
    ensures forall k :: 0 <= k < e ==> !IsEnd(ks[k])
    ensures e < |ks| ==> IsEnd(ks[e])
  {
    if ks == [] || IsEnd(ks[0]) then 0 else 1 + FirstEnd(ks[1..])
  }

  /** The body of section `name`: among the visible lines, those after the
      first line opening it and before the next `#endsection`; none when no
      line opens it. */
  function SectionLines(ls: seq<string>, name: string): seq<string>
  {
    var ks := VisibleLines(ls);
    match FirstOpening(ks, name)
    case None => []
    case Some(o) => ks[o + 1..][..FirstEnd(ks[o + 1..])]
  }

  /** What the extractor's loop knows after reading the visible lines `ks`:
      outside the section nothing was collected and no line opened it;
      inside, `o` is the first opening line, no end line followed it, and
      the collected text is every visible line after it. */
  predicate SectionState(ks: seq<string>, name: string, entered: bool, o: nat, r: string)
  {
    (!entered ==> r == "" && forall k :: 0 <= k < |ks| ==> !IsOpening(ks[k], name)) &&
    (entered ==> o < |ks| && IsOpening(ks[o], name) &&
                 (forall k :: 0 <= k < o ==> !IsOpening(ks[k], name)) &&
                 (forall k :: o < k < |ks| ==> !IsEnd(ks[k])) &&
                 r == JoinLines(ks[o + 1..]))
  }

  lemma VisibleLinesStep(ls: seq<string>, i: nat)
    requires i < |ls|
    ensures VisibleLines(ls[..i + 1]) == VisibleLines(ls[..i]) + (if Visible(ls[i]) then [ls[i]] else [])
  {
    assert ls[..i + 1][..i] == ls[..i];
  }

  /** A visible line that is not an opening line, read outside the section. */
  lemma StayOutside(ks: seq<string>, line: string, name: string)
    requires SectionState(ks, name, false, 0, "") && !IsOpening(line, name)
    ensures SectionState(ks + [line], name, false, 0, "")
  {
  }

  /** The first opening line enters the section with nothing collected yet. */
  lemma Enter(ks: seq<string>, line: string, name: string)
    requires SectionState(ks, name, false, 0, "") && IsOpening(line, name)
    ensures SectionState(ks + [line], name, true, |ks|, "")
  {
    assert (ks + [line])[|ks| + 1..] == [];
  }

  /** A visible line that does not end the section is collected. */
  lemma Collect(ks: seq<string>, line: string, name: string, o: nat, r: string)
    requires SectionState(ks, name, true, o, r) && !IsEnd(line)
    ensures SectionState(ks + [line], name, true, o, r + line + "\n")
  {
    JoinLinesAppend(ks[o + 1..], line);
    assert (ks + [line])[o + 1..] == ks[o + 1..] + [line];
  }

  /** Shader::ExtractShaderText over the lines of the file, as successive
      `std::getline` calls from its start return them (`Lines(text)`). */
  method ExtractShaderText(sectionName: string, ls: seq<string>) returns (r: string)
    ensures r == JoinLines(SectionLines(ls, sectionName))
  {
    var entered := false;
    r := "";
    var i := 0;
    ghost var o: nat := 0;
    ghost var ks: seq<string> := [];
    ghost var ended := false;
    while i < |ls|
      invariant i <= |ls| && !ended
      invariant ks == VisibleLines(ls[..i])
      invariant SectionState(ks, sectionName, entered, o, r)
      invariant !entered ==> o == 0
    {
      var line := ls[i];
      VisibleLinesStep(ls, i);
      if Contains(line, "#supports") {
        i := i + 1;
        continue;
      }
      if !entered && Contains(line, "#section") {
        if FindFrom(line, sectionName, FindFrom(line, "#section", 0).value).Some? {
          Enter(ks, line, sectionName);
          entered := true;
          o := |ks|;
        } else {
          StayOutside(ks, line, sectionName);
        }
        ks := ks + [line];
        i := i + 1;
        continue;
      }
      if entered && Contains(line, "#endsection") {
        ExtractedAtEnd(ls, i, o, sectionName, r);
        ended := true;
        break;
      }
      if entered {
        Collect(ks, line, sectionName, o, r);
        r := r + line + "\n";
      } else {
        StayOutside(ks, line, sectionName);
      }
      ks := ks + [line];
      i := i + 1;
    }
    if !ended {
      assert ls[..i] == ls;
      if entered {
        ExhaustedInside(ls, sectionName, o, r);
      } else {
        ExhaustedOutside(ls, sectionName);
      }
    }
  }

  lemma FirstOpeningIs(ks: seq<string>, name: string, o: nat)
    requires o < |ks| && IsOpening(ks[o], name)
    requires forall k :: 0 <= k < o ==> !IsOpening(ks[k], name)
    ensures FirstOpening(ks, name) == Some(o)
  {
  }

  lemma FirstEndIs(ks: seq<string>, e: nat)
    requires e <= |ks| && forall k :: 0 <= k < e ==> !IsEnd(ks[k])
    requires e < |ks| ==> IsEnd(ks[e])
    ensures FirstEnd(ks) == e
  {
  }

  /** Running out of lines without meeting an opening line yields nothing. */
  lemma ExhaustedOutside(ls: seq<string>, name: string)
    requires SectionState(VisibleLines(ls), name, false, 0, "")
    ensures SectionLines(ls, name) == []
  {
  }

  /** Running out of lines inside the section yields every visible line
      after the opening one. */
  lemma ExhaustedInside(ls: seq<string>, name: string, o: nat, r: string)
    requires SectionState(VisibleLines(ls), name, true, o, r)
    ensures r == JoinLines(SectionLines(ls, name))
  {
    var ks := VisibleLines(ls);
    FirstOpeningIs(ks, name, o);
    FirstEndIs(ks[o + 1..], |ks| - o - 1);
    assert ks[o + 1..][..|ks| - o - 1] == ks[o + 1..];
  }

  /** The visible lines around a visible line `ls[i]`. */
  lemma VisibleLinesAround(ls: seq<string>, i: nat)
    requires i < |ls| && Visible(ls[i])
    ensures VisibleLines(ls) == VisibleLines(ls[..i]) + ([ls[i]] + VisibleLines(ls[i + 1..]))
  {
    assert ls == ls[..i] + ([ls[i]] + ls[i + 1..]);
    VisibleLinesAppend(ls[..i], [ls[i]] + ls[i + 1..]);
    VisibleLinesAppend([ls[i]], ls[i + 1..]);
    assert VisibleLines([ls[i]]) == [ls[i]] by {
      assert [ls[i]][..0] == [];
    }
  }

  /** The body of an entered section ends at the first end line after its opening. */
  lemma SectionEndsAt(before: seq<string>, endLine: string, after: seq<string>, name: string, o: nat, r: string)
    requires IsEnd(endLine)
    requires SectionState(before, name, true, o, r)
    ensures FirstOpening(before + ([endLine] + after), name) == Some(o)
    ensures (before + ([endLine] + after))[o + 1..][..FirstEnd((before + ([endLine] + after))[o + 1..])]
         == before[o + 1..]
  {
    var ks := before + ([endLine] + after);
    FirstOpeningIs(ks, name, o);
    var tail := ks[o + 1..];
    var e := |before| - o - 1;
    assert tail == before[o + 1..] + ([endLine] + after);
    FirstEndIs(tail, e);
    assert tail[..e] == before[o + 1..];
  }

  /** Breaking out at the `#endsection` line `ls[i]` of an entered section
      yields the section body. */
  lemma ExtractedAtEnd(ls: seq<string>, i: nat, o: nat, name: string, r: string)
    requires i < |ls| && Visible(ls[i]) && IsEnd(ls[i])
    requires SectionState(VisibleLines(ls[..i]), name, true, o, r)
    ensures r == JoinLines(SectionLines(ls, name))
  {
    VisibleLinesAround(ls, i);
    SectionEndsAt(VisibleLines(ls[..i]), ls[i], VisibleLines(ls[i + 1..]), name, o, r);
  }

  /** `#end` alone does not close a section, and a line mentioning
      `#supports` is skipped even inside one. */
  lemma EndMarkers()
    ensures !IsEnd("#end")
    ensures IsEnd("#endsection")
    ensures !Visible("#supports instancing")
  {
    FindFromFirst("#end", "#endsection", 0);
    ContainsWitness("#endsection", "#endsection", 0);
    ContainsWitness("#supports instancing", "#supports", 0);
  }

  /** The preprocessor block that follows the version line of a variant. */
  function DeterminePreprocessorFlags(flags: ShaderFlags): string
  {
    if flags & Instanced != 0 then "\n" + InstancedDefine else "\n"
  }

  const InstancedDefine := "#define SHADER_INSTANCED 1\n"

  /** The block opens with a newline and defines SHADER_INSTANCED exactly
      for the instanced variants; otherwise it is the newline alone. */
  lemma PreprocessorFlagsContents(flags: ShaderFlags)
    ensures var r := DeterminePreprocessorFlags(flags);
      |r| >= 1 && r[0] == '\n' &&
      (flags & Instanced != 0 <==> Contains(r, InstancedDefine)) &&
      (flags & Instanced == 0 ==> r == "\n")
  {
    if flags & Instanced != 0 {
      ContainsWitness("\n" + InstancedDefine, InstancedDefine, 1);
    } else {
      FindFromFirst("\n", InstancedDefine, 0);
    }
  }

  /** The block depends on the Instanced bit alone. */
  lemma PreprocessorFlagsOnlyInstanced(a: ShaderFlags, b: ShaderFlags)
    requires a & Instanced == b & Instanced
    ensures DeterminePreprocessorFlags(a) == DeterminePreprocessorFlags(b)
  {
  }
}
