/** What the two `Utils` copies share: Java's identifier character classes,
 *  `isValidScriptName` as a predicate, the normalisation
 *  `candidate.replaceAll(" ", "_").split("\\.")[0]`, and the verdict on one
 *  name candidate. */
module ScriptNames {
  import opened Wrappers
  import opened Platform

  // ---------------------------------------------------------------------------
  // Character classes of java.lang.Character, exact on U+0000..U+00FF
  // ---------------------------------------------------------------------------

  /** A letter of Basic Latin or Latin-1 (general categories Lu, Ll, Lo). */
  predicate IsLatinLetter(c: char) {
    ('a' <= c <= 'z') || ('A' <= c <= 'Z')
    || c == '\U{AA}' || c == '\U{B5}' || c == '\U{BA}'
    || ('\U{C0}' <= c <= '\U{D6}') || ('\U{D8}' <= c <= '\U{F6}') || ('\U{F8}' <= c <= '\U{FF}')
  }

  /** `Character.isIdentifierIgnorable`: the non-whitespace ISO controls and
   *  the format characters (only the soft hyphen below U+0100). */
  predicate IsIdentifierIgnorable(c: char) {
    c <= '\U{8}' || ('\U{E}' <= c <= '\U{1B}') || ('\U{7F}' <= c <= '\U{9F}') || c == '\U{AD}'
  }

  /** `Character.isJavaIdentifierStart`: a letter, a currency symbol or a connecting punctuation. */
  predicate IsJavaIdentifierStart(c: char) {
    IsLatinLetter(c) || c == '$' || ('\U{A2}' <= c <= '\U{A5}') || c == '_'
  }

  /** `Character.isJavaIdentifierPart`: a start character, a digit or an ignorable character. */
  predicate IsJavaIdentifierPart(c: char) {
    IsJavaIdentifierStart(c) || ('0' <= c <= '9') || IsIdentifierIgnorable(c)
  }

  /** `isValidScriptName` on a non-null string: non-empty, an identifier-start
   *  character first and identifier-part characters after it. */
  predicate ValidScriptName(s: string): (valid: bool)
    ensures valid ==> forall i :: 0 <= i < |s| ==> IsJavaIdentifierPart(s[i])
    ensures valid ==> |s| > 0 && !('0' <= s[0] <= '9')
  {
    |s| > 0 && IsJavaIdentifierStart(s[0]) && forall i :: 1 <= i < |s| ==> IsJavaIdentifierPart(s[i])
  }

  /** A valid name holds neither a dot nor a space, and its characters are all identifier parts. */
  lemma ValidNameHasNoDotOrSpace(s: string)
    requires ValidScriptName(s)
    ensures '.' !in s && ' ' !in s
    ensures forall i :: 0 <= i < |s| ==> IsJavaIdentifierPart(s[i])
  {
  }

  // ---------------------------------------------------------------------------
  // replaceAll(" ", "_")
  // ---------------------------------------------------------------------------

  /** Every space becomes an underscore; every other character is kept in place. */
  function ReplaceSpaces(s: string): (r: string)
    ensures |r| == |s| && ' ' !in r
    ensures forall i :: 0 <= i < |s| && s[i] != ' ' ==> r[i] == s[i]
    ensures forall i :: 0 <= i < |s| && s[i] == ' ' ==> r[i] == '_'
  {
    if s == [] then []
    else [if s[0] == ' ' then '_' else s[0]] + ReplaceSpaces(s[1..])
  }

  // ---------------------------------------------------------------------------
  // split("\\.") as java.lang.String does it
  // ---------------------------------------------------------------------------

  /** The part of `s` before its first dot (all of `s` when it has none). */
  function HeadBeforeDot(s: string): (h: string)
    ensures h <= s && '.' !in h
    ensures |h| == |s| || s[|h|] == '.'
  {
    if s == [] || s[0] == '.' then []
    else [s[0]] + HeadBeforeDot(s[1..])
  }

  /** The part before the first dot is the only dot-free prefix that ends at a dot or at the end. */
  lemma HeadBeforeDotIsUnique(s: string, p: string)
    requires p <= s && '.' !in p
    requires |p| == |s| || s[|p|] == '.'
    ensures HeadBeforeDot(s) == p
  {
  }

  /** The pieces between the dots of `s`, empty ones included: one more than the number of dots. */
  function DotTokens(s: string): (ts: seq<string>)
    ensures |ts| >= 1 && ts[0] == HeadBeforeDot(s)
    decreases |s|
  {
    var h := HeadBeforeDot(s);
    if |h| == |s| then [s]
    else [h] + DotTokens(s[|h| + 1..])
  }

  /** `ts` without its trailing run of empty strings. */
  function DropTrailingEmpty(ts: seq<string>): (r: seq<string>)
    ensures r <= ts
    ensures r == [] || r[|r| - 1] != []
    ensures forall i :: |r| <= i < |ts| ==> ts[i] == []
  {
    if ts == [] then []
    else if ts[|ts| - 1] == [] then DropTrailingEmpty(ts[..|ts| - 1])
    else ts
  }

  /** `s.split("\\.")`: the input itself when it holds no dot; otherwise the
   *  pieces between dots with the trailing empty ones removed, which leaves
   *  no piece at all when `s` is made of dots only. */
  function JavaSplitOnDot(s: string): (parts: seq<string>)
    ensures parts == [] <==> |s| > 0 && AllDots(s)
    ensures parts != [] ==> parts[0] == HeadBeforeDot(s)
  {
    if '.' !in s then
      assert |s| > 0 ==> s[0] in s;
      [s]
    else
      DotTokensAllEmpty(s);
      DropTrailingEmpty(DotTokens(s))
  }

  predicate AllDots(s: string) {
    forall i :: 0 <= i < |s| ==> s[i] == '.'
  }

  predicate AllEmpty(ts: seq<string>) {
    forall i :: 0 <= i < |ts| ==> ts[i] == []
  }

  /** Every piece between the dots is empty exactly when the string is made of dots only. */
  lemma {:induction false} DotTokensAllEmpty(s: string)
    ensures AllEmpty(DotTokens(s)) <==> AllDots(s)
    decreases |s|
  {
    var h := HeadBeforeDot(s);
    if |h| == |s| {
      assert h == s;
      if s != [] {
        assert s[0] == h[0] && h[0] in h;
      }
    } else {
      var rest := s[|h| + 1..];
      DotTokensAllEmpty(rest);
      var ts := DotTokens(s);
      assert ts == [h] + DotTokens(rest);
      if AllDots(s) {
        assert forall i :: 0 <= i < |rest| ==> rest[i] == s[|h| + 1 + i];
        assert AllDots(rest);
        assert AllEmpty(ts);
      }
      if AllEmpty(ts) {
        assert h == ts[0] == [];
        assert AllEmpty(DotTokens(rest)) by {
          assert forall j :: 0 <= j < |DotTokens(rest)| ==> DotTokens(rest)[j] == ts[j + 1];
        }
        assert s == ['.'] + rest;
        assert AllDots(s);
      }
    }
  }

  // ---------------------------------------------------------------------------
  // The verdict on one candidate
  // ---------------------------------------------------------------------------

  /** What happens to one name candidate: it is returned as the name, it is
   *  passed over, or `strings[0]` throws ArrayIndexOutOfBoundsException because
   *  the split left no piece. */
  datatype Verdict = Accepted(name: string) | Passed | Threw

  /** The exception `deriveNameFromUri` lets escape. */
  datatype Failure = ArrayIndexOutOfBounds

  /** The source's block
   *  `if (!isEmpty(c)) { strings = c.replaceAll(" ", "_").split("\\."); if (isValidScriptName(strings[0])) return strings[0]; }`. */
  function Examine(candidate: Option<string>): (v: Verdict)
    ensures v.Accepted? <==> candidate.Some? && ValidScriptName(HeadBeforeDot(ReplaceSpaces(candidate.value)))
    ensures v.Accepted? ==> v.name == HeadBeforeDot(ReplaceSpaces(candidate.value))
    ensures v.Accepted? ==> ValidScriptName(v.name) && '.' !in v.name && ' ' !in v.name
    ensures v.Threw? <==> candidate.Some? && |candidate.value| > 0 && AllDots(candidate.value)
  {
    match candidate
    case None => Passed
    case Some(s) =>
      if s == "" then Passed
      else
        var parts := JavaSplitOnDot(ReplaceSpaces(s));
        assert AllDots(ReplaceSpaces(s)) <==> AllDots(s);
        if |parts| == 0 then
          assert HeadBeforeDot(ReplaceSpaces(s)) == [];
          Threw
        else
          if ValidScriptName(parts[0]) then
            ValidNameHasNoDotOrSpace(parts[0]);
            Accepted(parts[0])
          else Passed
  }

  /** The path-segment block shared by both copies: a `return` of the name, a
   *  `break` to `return ""`, or the exception from `strings[0]`, which no
   *  `catch` surrounds. */
  function NameFromLastPathSegment(uri: Uri): (r: Result<string, Failure>)
    ensures r.Failure? <==> Examine(uri.lastPathSegment).Threw?
    ensures r.Success? && r.value != "" ==> Examine(uri.lastPathSegment) == Accepted(r.value)
    ensures r == Success("") <==> Examine(uri.lastPathSegment).Passed?
  {
    match Examine(uri.lastPathSegment)
    case Accepted(name) => Success(name)
    case Passed => Success("")
    case Threw => Failure(ArrayIndexOutOfBounds)
  }

  // ---------------------------------------------------------------------------
  // First valid candidate wins: the reference search both copies are checked against
  // ---------------------------------------------------------------------------

  /** The verdict on each candidate, in order. */
  function VerdictsOf(cands: seq<Option<string>>): (vs: seq<Verdict>)
    ensures |vs| == |cands| && forall i :: 0 <= i < |cands| ==> vs[i] == Examine(cands[i])
  {
    seq(|cands|, i requires 0 <= i < |cands| => Examine(cands[i]))
  }

  /** `vs[k]` accepts a name and no earlier verdict does. */
  predicate FirstAcceptedAt(vs: seq<Verdict>, k: int) {
    0 <= k < |vs| && vs[k].Accepted? && forall j :: 0 <= j < k ==> !vs[j].Accepted?
  }

  /** The name of the first accepting verdict in `vs`, if any: the first valid candidate wins. */
  function FirstAccepted(vs: seq<Verdict>): (r: Option<string>)
    ensures r.Some? <==> exists k :: 0 <= k < |vs| && vs[k].Accepted?
    ensures r.Some? ==> exists k :: FirstAcceptedAt(vs, k) && vs[k].name == r.value
  {
    if vs == [] then None
    else if vs[0].Accepted? then
      assert FirstAcceptedAt(vs, 0);
      Some(vs[0].name)
    else
      var tail := vs[1..];
      var r := FirstAccepted(tail);
      assert forall k :: 1 <= k < |vs| ==> vs[k] == tail[k - 1];
      assert r.Some? ==> exists k :: FirstAcceptedAt(vs, k) && vs[k].name == r.value by {
        if r.Some? {
          var k :| FirstAcceptedAt(tail, k) && tail[k].name == r.value;
          assert FirstAcceptedAt(vs, k + 1);
        }
      }
      r
  }

  /** The search looks at the first candidate before the rest. */
  lemma FirstAcceptedStep(cands: seq<Option<string>>)
    requires cands != []
    ensures FirstAccepted(VerdictsOf(cands)) ==
      if Examine(cands[0]).Accepted? then Some(Examine(cands[0]).name) else FirstAccepted(VerdictsOf(cands[1..]))
  {
    var vs := VerdictsOf(cands);
    assert vs[1..] == VerdictsOf(cands[1..]);
  }

  /** A search over one candidate finds its name, if it has one. */
  lemma FirstAcceptedSingle(c: Option<string>)
    ensures FirstAccepted(VerdictsOf([c])) == if Examine(c).Accepted? then Some(Examine(c).name) else None
  {
  }

  /** A candidate is accepted with `name` when `name` is valid and is the
   *  part before the first dot of the normalised candidate. */
  lemma AcceptedWithHead(s: string, name: string)
    requires ValidScriptName(name)
    requires |name| < |s| && ReplaceSpaces(s)[|name|] == '.'
    requires forall i :: 0 <= i < |name| ==> ReplaceSpaces(s)[i] == name[i]
    ensures Examine(Some(s)) == Accepted(name)
  {
    var r := ReplaceSpaces(s);
    ValidNameHasNoDotOrSpace(name);
    assert name == r[..|name|];
    HeadBeforeDotIsUnique(r, name);
  }

  /** Extension stripping: a valid stem followed by a dot and anything is
   *  accepted as that stem (`hello.world.groovy` gives `hello`). */
  lemma StemBeforeDotIsTheName(stem: string, extension: string)
    requires ValidScriptName(stem)
    ensures Examine(Some(stem + "." + extension)) == Accepted(stem)
  {
    var s := stem + "." + extension;
    ValidNameHasNoDotOrSpace(stem);
    forall i | 0 <= i < |stem| ensures ReplaceSpaces(s)[i] == stem[i] {
      assert s[i] == stem[i] && stem[i] in stem;
    }
    assert s[|stem|] == '.';
    AcceptedWithHead(s, stem);
  }

  /** Space normalisation: two space-free parts joined by a space, then a
   *  dot and anything, are accepted joined by `_` when that join is a valid
   *  name (`My Script.groovy` gives `My_Script`). */
  lemma SpaceBecomesUnderscore(first: string, second: string, extension: string)
    requires ValidScriptName(first + "_" + second)
    ensures Examine(Some(first + " " + second + "." + extension)) == Accepted(first + "_" + second)
  {
    var name := first + "_" + second;
    var s := first + " " + second + "." + extension;
    ValidNameHasNoDotOrSpace(name);
    forall i | 0 <= i < |name| ensures ReplaceSpaces(s)[i] == name[i] {
      if i < |first| {
        assert s[i] == first[i] == name[i] && name[i] in name;
      } else if i == |first| {
        assert s[i] == ' ' && name[i] == '_';
      } else {
        assert s[i] == second[i - |first| - 1] == name[i] && name[i] in name;
      }
    }
    assert s[|name|] == '.';
    AcceptedWithHead(s, name);
  }

  /** A candidate starting with a digit is passed over (`123abc.txt`), and
   *  the search moves on to the next one. */
  lemma DigitFirstIsPassed(s: string)
    requires |s| > 0 && '0' <= s[0] <= '9'
    ensures Examine(Some(s)) == Passed
  {
  }

  /** A candidate made of dots makes `strings[0]` throw. */
  lemma ExampleDotsThrow()
    ensures Examine(Some("...")) == Threw
  {
  }

  /** `""` and `"1x"` are rejected, `"_x1"` and `"a_B2"` accepted; a dot or a space anywhere rejects a name. */
  lemma ValidScriptNameExamples()
    ensures !ValidScriptName("") && !ValidScriptName("1x")
    ensures ValidScriptName("_x1") && ValidScriptName("a_B2")
    ensures !ValidScriptName("a.b") && !ValidScriptName("a b")
  {
    assert "a.b"[1] == '.' && !IsJavaIdentifierPart('.');
    assert "a b"[1] == ' ' && !IsJavaIdentifierPart(' ');
  }
}
