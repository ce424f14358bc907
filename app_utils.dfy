/** `net.sf.fakenames.app.Utils`: the same validation, and a name deriver in
 *  which only `file`, `resource` and `http` read the last path segment,
 *  `content` reads the resolver only, and every other scheme (`https`
 *  among them) gives no name. */
module AppUtils {
  import opened Wrappers
  import opened Platform
  import opened ScriptNames
  import DispatcherUtils

  /** `isValidScriptName`, identical to the dispatcher's copy. */
  method IsValidScriptName(s: Option<string>) returns (valid: bool)
    ensures valid <==> s.Some? && ValidScriptName(s.value)
  {
    if s.None? || |s.value| == 0 {
      return false;
    }
    var c := s.value;
    if !IsJavaIdentifierStart(c[0]) {
      return false;
    }
    var i := 1;
    while i < |c|
      invariant 1 <= i <= |c|
      invariant forall k :: 1 <= k < i ==> IsJavaIdentifierPart(c[k])
    {
      if !IsJavaIdentifierPart(c[i]) {
        return false;
      }
      i := i + 1;
    }
    return true;
  }

  /** The schemes whose `case` reads the last path segment. */
  predicate IsSegmentScheme(scheme: string) {
    scheme == "file" || scheme == "resource" || scheme == "http"
  }

  /** `deriveNameFromUri` of this copy, the resolver's answers given as
   *  `content`. The split of the segment is outside any `try`, so a
   *  segment made of dots escapes as `Failure`. */
  function DeriveNameFromUri(uri: Uri, content: ContentAnswers): (r: Result<string, Failure>)
    ensures !IsNonEmpty(uri.scheme) ==> r == Success("")
    ensures r.Success? && r.value != "" ==> ValidScriptName(r.value) && '.' !in r.value && ' ' !in r.value
    ensures r.Failure? ==> IsSegmentScheme(uri.scheme.value) && Examine(uri.lastPathSegment).Threw?
  {
    if !IsNonEmpty(uri.scheme) then Success("")
    else if IsSegmentScheme(uri.scheme.value) then NameFromLastPathSegment(uri)
    else if uri.scheme.value == "content" then
      match Examine(content.displayName)
      case Accepted(name) => Success(name)
      case _ =>
        match Examine(content.descriptorPath)
        case Accepted(name) => Success(name)
        case _ => Success("")
    else Success("")
  }

  /** The candidates this copy tries, in order: the last path segment alone
   *  for `file`, `resource` and `http`; display name, then descriptor path for
   *  `content`, never the segment; none for any other or an empty scheme. */
  function Candidates(uri: Uri, content: ContentAnswers): (cands: seq<Option<string>>)
    ensures cands != [] <==> IsNonEmpty(uri.scheme) && (IsSegmentScheme(uri.scheme.value) || uri.scheme.value == "content")
    ensures IsNonEmpty(uri.scheme) && IsSegmentScheme(uri.scheme.value) ==> cands == [uri.lastPathSegment]
    ensures IsNonEmpty(uri.scheme) && uri.scheme.value == "content" ==> cands == [content.displayName, content.descriptorPath]
  {
    if !IsNonEmpty(uri.scheme) then []
    else if IsSegmentScheme(uri.scheme.value) then [uri.lastPathSegment]
    else if uri.scheme.value == "content" then [content.displayName, content.descriptorPath]
    else []
  }

  /** The deriver returns the first accepted candidate — the segment for
   *  `file`, `resource` and `http`; display name, then descriptor path for
   *  `content`; nothing for any other scheme — and `""` when none is
   *  accepted, unless the segment's split throws. */
  lemma DeriveIsFirstAcceptedCandidate(uri: Uri, content: ContentAnswers)
    ensures DeriveNameFromUri(uri, content) ==
      match FirstAccepted(VerdictsOf(Candidates(uri, content)))
      case Some(name) => Success(name)
      case None =>
        if IsNonEmpty(uri.scheme) && IsSegmentScheme(uri.scheme.value) && Examine(uri.lastPathSegment).Threw?
        then Failure(ArrayIndexOutOfBounds)
        else Success("")
  {
  }

  /** `content` never falls back to the last path segment and never throws. */
  lemma ContentIgnoresTheSegment(uri: Uri, content: ContentAnswers, segment: Option<string>)
    requires uri.scheme == Some("content")
    ensures DeriveNameFromUri(uri, content) == DeriveNameFromUri(uri.(lastPathSegment := segment), content)
    ensures DeriveNameFromUri(uri, content).Success?
  {
  }

  /** Every non-empty scheme outside `file`, `resource`, `http` and `content`
   *  gives `""`, whatever the URI and the resolver hold. */
  lemma OtherSchemesGiveNoName(uri: Uri, content: ContentAnswers)
    requires IsNonEmpty(uri.scheme) && !IsSegmentScheme(uri.scheme.value) && uri.scheme.value != "content"
    ensures DeriveNameFromUri(uri, content) == Success("")
  {
  }

  /** In particular `https`, which the dispatcher forwards, gets no name here. */
  lemma HttpsGivesNoName(uri: Uri, content: ContentAnswers)
    requires uri.scheme == Some("https")
    ensures DeriveNameFromUri(uri, content) == Success("")
  {
  }

  /** How the two copies relate: they agree on `file`, `resource` and `http`;
   *  on `content` they agree whenever this copy finds a name, and otherwise
   *  the dispatcher goes on to the last path segment. */
  lemma AgreesWithDispatcher(uri: Uri, content: ContentAnswers)
    ensures !IsNonEmpty(uri.scheme) || IsSegmentScheme(uri.scheme.value) ==>
      DeriveNameFromUri(uri, content) == DispatcherUtils.DeriveNameFromUri(uri, content)
    ensures IsNonEmpty(uri.scheme) && uri.scheme.value == "content" ==>
      if DeriveNameFromUri(uri, content) == Success("")
      then DispatcherUtils.DeriveNameFromUri(uri, content) == NameFromLastPathSegment(uri)
      else DispatcherUtils.DeriveNameFromUri(uri, content) == DeriveNameFromUri(uri, content)
  {
  }

  /** A last path segment made only of dots makes the call throw for the
   *  three segment schemes, where the evidently intended behaviour is to
   *  find no name. */
  lemma DotsSegmentEscapes(uri: Uri, content: ContentAnswers)
    requires uri == Uri(Some("resource"), Some(".."))
    ensures DeriveNameFromUri(uri, content) == Failure(ArrayIndexOutOfBounds)
    ensures DeriveNameCorrected(uri, content) == ""
  {
  }

  /** `deriveNameFromUri` with the split of the last path segment guarded:
   *  the first accepted candidate, or `""`. It never throws and agrees with
   *  the code as written wherever that returns. */
  function DeriveNameCorrected(uri: Uri, content: ContentAnswers): (name: string)
    ensures name == "" || (ValidScriptName(name) && '.' !in name && ' ' !in name)
    ensures DeriveNameFromUri(uri, content).Success? ==> name == DeriveNameFromUri(uri, content).value
    ensures DeriveNameFromUri(uri, content).Failure? ==> name == ""
  {
    DeriveIsFirstAcceptedCandidate(uri, content);
    match FirstAccepted(VerdictsOf(Candidates(uri, content)))
    case Some(n) =>
      assert exists k :: FirstAcceptedAt(VerdictsOf(Candidates(uri, content)), k)
                         && VerdictsOf(Candidates(uri, content))[k].name == n;
      n
    case None => ""
  }
}
