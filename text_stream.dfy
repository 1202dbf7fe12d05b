/** The optional-value datatype used throughout the model for null pointers,
    `npos` and "not found". */
module Options {
  datatype Option<+T> = None | Some(value: T)
}

/** The parts of `std::istream` and `std::string` that the shader and OBJ
    scanners rely on, as functions over the whole file text:
    `file >> word` (skip white space, read up to the next white space),
    `std::getline` (read up to and consuming the next newline) and
    `std::string::find`. */
module TextStream {
  import opened Options

  /** White space as the C locale's `isspace` classifies it. */
  predicate IsSpace(c: char)
  {
    c == ' ' || c == '\t' || c == '\n' || c == '\r' || c == 11 as char || c == 12 as char
  }

  predicate NoSpaces(w: string)
  {
    forall k :: 0 <= k < |w| ==> !IsSpace(w[k])
  }

  /** First position at or after `i` that is not white space (or the end). */
  function SkipSpaces(s: string, i: nat): (j: nat)
    requires i <= |s|
    ensures i <= j <= |s|
    ensures forall k :: i <= k < j ==> IsSpace(s[k])
    ensures j < |s| ==> !IsSpace(s[j])
    decreases |s| - i
  {
    if i == |s| || !IsSpace(s[i]) then i else SkipSpaces(s, i + 1)
  }

  /** First position at or after `i` that is white space (or the end). */
  function WordEnd(s: string, i: nat): (j: nat)
    requires i <= |s|
    ensures i <= j <= |s|
    ensures forall k :: i <= k < j ==> !IsSpace(s[k])
    ensures j < |s| ==> IsSpace(s[j])
    decreases |s| - i
  {
    if i == |s| || IsSpace(s[i]) then i else WordEnd(s, i + 1)
  }

  /** The outcome of `stream >> word` from position `p`: the word and the
      position just after it, or a failed read when only white space is left. */
  datatype WordRead = Word(word: string, next: nat) | NoWord

  function ReadWord(s: string, p: nat): (r: WordRead)
    requires p <= |s|
    ensures r.Word? ==> p + |r.word| <= r.next <= |s| && |r.word| > 0
  {
    var a := SkipSpaces(s, p);
    if a == |s| then NoWord else Word(s[a..WordEnd(s, a)], WordEnd(s, a))
  }

  /** A read word is the maximal run of non-space characters after the
      white space at `p`; no word is read exactly when only white space is
      left. */
  lemma ReadWordMeaning(s: string, p: nat)
    requires p <= |s|
    ensures var r := ReadWord(s, p);
      (r.Word? ==> NoSpaces(r.word) && r.word == s[r.next - |r.word|..r.next]) &&
      (r.Word? ==> forall k :: p <= k < r.next - |r.word| ==> IsSpace(s[k])) &&
      (r.Word? ==> r.next == |s| || IsSpace(s[r.next])) &&
      (r.NoWord? <==> forall k :: p <= k < |s| ==> IsSpace(s[k]))
  {
  }

  /** First newline at or after `p` (or the end). */
  function LineEnd(s: string, p: nat): (e: nat)
    requires p <= |s|
    ensures p <= e <= |s|
    ensures forall k :: p <= k < e ==> s[k] != '\n'
    ensures e < |s| ==> s[e] == '\n'
    decreases |s| - p
  {
    if p == |s| || s[p] == '\n' then p else LineEnd(s, p + 1)
  }

  /** `std::getline` from position `p`: the text up to the newline, and the
      position after the newline. */
  function GetLine(s: string, p: nat): (r: (string, nat))
    requires p <= |s|
    ensures r.0 == s[p..LineEnd(s, p)]
    ensures LineEnd(s, p) <= r.1 <= |s|
    ensures r.1 == |s| || r.1 == LineEnd(s, p) + 1
    ensures p < |s| ==> p < r.1
    ensures forall k :: 0 <= k < |r.0| ==> r.0[k] != '\n'
  {
    var e := LineEnd(s, p);
    (s[p..e], if e < |s| then e + 1 else |s|)
  }

  /** The lines that successive `std::getline` calls return: a final line
      without a newline is still returned, a final newline adds no empty line. */
  function Lines(s: string): (ls: seq<string>)
    ensures s == [] <==> ls == []
    decreases |s|
  {
    if s == [] then []
    else
      var r := GetLine(s, 0);
      [r.0] + Lines(s[r.1..])
  }

  /** Joining the lines back, each followed by a newline, gives the text,
      up to one final newline. */
  lemma {:induction false} LinesJoin(s: string)
    ensures JoinLines(Lines(s)) == s || JoinLines(Lines(s)) == s + "\n"
    decreases |s|
  {
    if s != [] {
      var r := GetLine(s, 0);
      var e := LineEnd(s, 0);
      LinesJoin(s[r.1..]);
      if e < |s| {
        assert s == s[..e] + "\n" + s[e + 1..];
        assert r.1 == e + 1;
        assert JoinLines(Lines(s)) == s[..e] + "\n" + JoinLines(Lines(s[r.1..]));
        if s[r.1..] == [] {
          assert JoinLines(Lines(s)) == s;
        } else if JoinLines(Lines(s[r.1..])) == s[r.1..] {
          assert JoinLines(Lines(s)) == s;
        } else {
          assert JoinLines(Lines(s)) == s + "\n";
        }
      } else {
        assert r.1 == |s| && s[r.1..] == [];
        assert JoinLines(Lines(s)) == s + "\n";
      }
    }
  }

  /** Each line followed by a newline, as `stream << line << std::endl` writes them. */
  function JoinLines(ls: seq<string>): string
  {
    if ls == [] then "" else ls[0] + "\n" + JoinLines(ls[1..])
  }

  lemma {:induction false} JoinLinesAppend(ls: seq<string>, l: string)
    ensures JoinLines(ls + [l]) == JoinLines(ls) + l + "\n"
  {
    if ls != [] {
      assert (ls + [l])[1..] == ls[1..] + [l];
      JoinLinesAppend(ls[1..], l);
    }
  }

  predicate OccursAt(s: string, pat: string, i: nat)
  {
    i + |pat| <= |s| && s[i..i + |pat|] == pat
  }

  /** `s.find(pat, from)`: the position of the first occurrence of `pat`
      at or after `from`, or `npos` (None). */
  function FindFrom(s: string, pat: string, from: nat): Option<nat>
    decreases |s| - from
  {
    if from + |pat| > |s| then None
    else if OccursAt(s, pat, from) then Some(from)
    else FindFrom(s, pat, from + 1)
  }

  /** FindFrom finds the first occurrence, and finds none only when there is none. */
  lemma {:induction false} FindFromFirst(s: string, pat: string, from: nat)
    ensures var r := FindFrom(s, pat, from);
      (r.Some? ==> from <= r.value && OccursAt(s, pat, r.value)) &&
      (r.Some? ==> forall k :: from <= k < r.value ==> !OccursAt(s, pat, k)) &&
      (r.None? ==> forall k :: from <= k ==> !OccursAt(s, pat, k))
    decreases |s| - from
  {
    if from + |pat| <= |s| && !OccursAt(s, pat, from) {
      FindFromFirst(s, pat, from + 1);
    }
  }

  /** `s.find(pat) != std::string::npos`. */
  predicate Contains(s: string, pat: string)
  {
    FindFrom(s, pat, 0).Some?
  }

  /** Contains holds exactly when the pattern occurs somewhere. */
  lemma ContainsWitness(s: string, pat: string, i: nat)
    requires OccursAt(s, pat, i)
    ensures Contains(s, pat)
  {
    FindFromFirst(s, pat, 0);
  }
}
