/** `net.sf.fakenames.dispatcher.Utils`: name validation, the scheme filter
 *  and the name deriver in which the `content` case has no `break`, so that
 *  its resolver candidates are followed by the last path segment, and the
 *  `default` branch serves every other non-empty scheme. */
module DispatcherUtils {
  import opened Wrappers
  import opened Platform
  import opened ScriptNames

  /** `isValidScriptName`: `null` and `""` are rejected, then the first
   *  character must start an identifier and each later one continue it. */
  method IsValidScriptName(s: Option<string>) returns (valid: bool)
    ensures valid <==> s.Some? && ValidScriptName(s.value)
  {
    if s.None? || |s.value| == 0 {
      return false;
    }
    var c := s.value;
    if !IsJavaIdentifierStart(c[0]) {
      return false;
    }
    var i := 1;
    while i < |c|
      invariant 1 <= i <= |c|
      invariant forall k :: 1 <= k < i ==> IsJavaIdentifierPart(c[k])
    {
      if !IsJavaIdentifierPart(c[i]) {
        return false;
      }
      i := i + 1;
    }
    return true;
  }

  /** The schemes the dispatcher hands on to the script picker. */
  const SupportedSchemes: set<string> := {"content", "resource", "file", "http", "https"}

  /** `isSupportedScheme`: an exact, case-sensitive match against five names. */
  function IsSupportedScheme(scheme: Option<string>): (supported: bool)
    ensures supported <==> scheme.Some? && scheme.value in SupportedSchemes
    ensures supported ==> IsNonEmpty(scheme)
  {
    if !IsNonEmpty(scheme) then false
    else
      var s := scheme.value;
      s == "content" || s == "resource" || s == "file" || s == "http" || s == "https"
  }

  /** Scheme names are compared as written: no upper-case spelling is supported. */
  lemma SchemeMatchIsCaseSensitive()
    ensures !IsSupportedScheme(Some("HTTP")) && !IsSupportedScheme(Some("Content"))
    ensures !IsSupportedScheme(Some("ftp")) && !IsSupportedScheme(Some("")) && !IsSupportedScheme(None)
  {
  }

  /** `deriveNameFromUri`, the resolver's answers given as `content`. A
   *  candidate that makes `strings[0]` throw inside one of the two `try`
   *  blocks is swallowed like any other RuntimeException; in the `default`
   *  branch it escapes as `Failure`. */
  function DeriveNameFromUri(uri: Uri, content: ContentAnswers): (r: Result<string, Failure>)
    ensures !IsNonEmpty(uri.scheme) ==> r == Success("")
    ensures r.Success? && r.value != "" ==> ValidScriptName(r.value) && '.' !in r.value && ' ' !in r.value
    ensures r.Failure? ==> IsNonEmpty(uri.scheme) && Examine(uri.lastPathSegment).Threw?
  {
    if !IsNonEmpty(uri.scheme) then Success("")
    else if uri.scheme.value == "content" then
      match Examine(content.displayName)
      case Accepted(name) => Success(name)
      case _ =>
        match Examine(content.descriptorPath)
        case Accepted(name) => Success(name)
        case _ => NameFromLastPathSegment(uri)
    else NameFromLastPathSegment(uri)
  }

  /** The candidates this copy tries, in order: none without a scheme; the
   *  display name and the descriptor path before the segment for `content`;
   *  the last path segment last for every non-empty scheme. */
  function Candidates(uri: Uri, content: ContentAnswers): (cands: seq<Option<string>>)
    ensures cands == [] <==> !IsNonEmpty(uri.scheme)
    ensures cands != [] ==> cands[|cands| - 1] == uri.lastPathSegment
    ensures |cands| > 1 <==> IsNonEmpty(uri.scheme) && uri.scheme.value == "content"
    ensures |cands| > 1 ==> cands == [content.displayName, content.descriptorPath, uri.lastPathSegment]
  {
    if !IsNonEmpty(uri.scheme) then []
    else if uri.scheme.value == "content" then [content.displayName, content.descriptorPath, uri.lastPathSegment]
    else [uri.lastPathSegment]
  }

  /** The deriver returns the first accepted candidate among display name,
   *  descriptor path and last path segment (only the segment for a scheme
   *  other than `content`); with none accepted it returns `""`, unless the
   *  segment is made of dots, whose split escapes as an exception. */
  lemma DeriveIsFirstAcceptedCandidate(uri: Uri, content: ContentAnswers)
    ensures DeriveNameFromUri(uri, content) ==
      match FirstAccepted(VerdictsOf(Candidates(uri, content)))
      case Some(name) => Success(name)
      case None =>
        if IsNonEmpty(uri.scheme) && Examine(uri.lastPathSegment).Threw? then Failure(ArrayIndexOutOfBounds)
        else Success("")
  {
    if IsNonEmpty(uri.scheme) {
      var segment := uri.lastPathSegment;
      FirstAcceptedSingle(segment);
      if uri.scheme.value == "content" {
        var cands := [content.displayName, content.descriptorPath, segment];
        FirstAcceptedStep(cands);
        assert cands[1..] == [content.descriptorPath, segment];
        FirstAcceptedStep(cands[1..]);
        assert cands[1..][1..] == [segment];
      }
    }
  }

  /** A resolver answer that yields no accepted candidate — a failed query,
   *  no row, an empty or invalid name, or a split that throws — leaves the
   *  result exactly as if the resolver had failed. */
  lemma ResolverFailuresAreSwallowed(uri: Uri, content: ContentAnswers)
    requires !Examine(content.displayName).Accepted?
    ensures DeriveNameFromUri(uri, content) == DeriveNameFromUri(uri, content.(displayName := None))
    ensures !Examine(content.descriptorPath).Accepted? ==>
      DeriveNameFromUri(uri, content) == DeriveNameFromUri(uri, ContentAnswers(None, None))
  {
  }

  /** Every non-empty scheme other than `content`, supported or not, reads
   *  only the last path segment. */
  lemma OtherSchemesUseOnlyTheSegment(uri: Uri, a: ContentAnswers, b: ContentAnswers)
    requires IsNonEmpty(uri.scheme) && uri.scheme.value != "content"
    ensures DeriveNameFromUri(uri, a) == DeriveNameFromUri(uri, b) == NameFromLastPathSegment(uri)
  {
  }

  /** An unsupported scheme still reaches the `default` branch: `ftp:` with
   *  segment `x.groovy` gives `x`. */
  lemma UnsupportedSchemeIsDerived(uri: Uri, content: ContentAnswers)
    requires uri == Uri(Some("ftp"), Some("x.groovy"))
    ensures !IsSupportedScheme(uri.scheme)
    ensures DeriveNameFromUri(uri, content) == Success("x")
  {
    assert uri.lastPathSegment.value == "x" + "." + "groovy";
    StemBeforeDotIsTheName("x", "groovy");
    assert uri.scheme.value != "content" by {
      assert uri.scheme.value[0] != "content"[0];
    }
    OtherSchemesUseOnlyTheSegment(uri, content, content);
    SchemeMatchIsCaseSensitive();
  }

  /** A last path segment made only of dots (`file:///tmp/...` has segment
   *  `...`) makes the call throw, where the evidently intended behaviour is
   *  to find no name. */
  lemma DotsSegmentEscapes(uri: Uri, content: ContentAnswers)
    requires uri == Uri(Some("file"), Some("..."))
    ensures DeriveNameFromUri(uri, content) == Failure(ArrayIndexOutOfBounds)
    ensures DeriveNameCorrected(uri, content) == ""
  {
  }

  /** `deriveNameFromUri` with the split of the last path segment guarded
   *  like the other two: the first accepted candidate, or `""`. It never
   *  throws and agrees with the code as written wherever that returns. */
  function DeriveNameCorrected(uri: Uri, content: ContentAnswers): (name: string)
    ensures name == "" || (ValidScriptName(name) && '.' !in name && ' ' !in name)
    ensures DeriveNameFromUri(uri, content).Success? ==> name == DeriveNameFromUri(uri, content).value
    ensures DeriveNameFromUri(uri, content).Failure? ==> name == ""
  {
    DeriveIsFirstAcceptedCandidate(uri, content);
    match FirstAccepted(VerdictsOf(Candidates(uri, content)))
    case Some(n) =>
      assert exists k :: FirstAcceptedAt(VerdictsOf(Candidates(uri, content)), k)
                         && VerdictsOf(Candidates(uri, content))[k].name == n;
      n
    case None => ""
  }
}
