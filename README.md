# Script-name derivation and intent routing of the Groovy script runner

This project models, in Dafny, the small decision logic of the Android
Groovy-script runner (GroovyShell):

- **Script-name validation** (`isValidScriptName`): a name is non-null and
  non-empty, starts with a Java identifier-start character and continues with
  Java identifier-part characters. It is modelled as the loop it is
  (`IsValidScriptName`, once per `Utils` copy), proved equal to the predicate
  `ScriptNames.ValidScriptName`.
- **Scheme filter** (`isSupportedScheme`): exact, case-sensitive membership in
  `content`, `resource`, `file`, `http`, `https`.
- **Name derivation** (`deriveNameFromUri`) in both near-duplicate copies: an
  ordered first-valid-wins search over candidate strings (content display
  name, path of the opened file descriptor, last path segment). Each candidate
  has its spaces replaced by `_` and is cut before its first `.` exactly as
  `replaceAll(" ", "_").split("\\.")[0]` does. That includes Java's `split`,
  which removes trailing empty pieces, so a candidate made only of dots leaves
  no piece and `strings[0]` throws.
  - The dispatcher copy has no `break` after its `content` case. Content URIs
    therefore fall through to the last path segment, and the `default` branch
    serves every other non-empty scheme, `ftp` included.
  - The app copy reads the segment only for `file`, `resource` and `http`. It
    reads only the resolver for `content` and gives `""` for `https` and
    everything else.
- **Intent routing** (`FastIntentDispatcher.handleIntent`, `startScriptPicker`,
  `onCreate`): a pure function from the incoming intent to a rejection (with
  the toast it shows) or a VIEW request forwarded to the script picker.

The content resolver is not called: its answers are inputs
(`Platform.ContentAnswers`). `None` stands for every way a query or a
descriptor can fail: an exception, a null cursor, no row, a null column, or
a failed path recovery. A `null` string, scheme or path segment is `Wrappers.None`; the URI itself is never null in the model. An
exception that escapes `deriveNameFromUri` is `Failure(ArrayIndexOutOfBounds)`.

The two copies differ in three places, each stated as a lemma. The app copy
returns `""` for `https` (`AppUtils.HttpsGivesNoName`). The dispatcher copy
derives a name from the last path segment for any non-empty scheme, `ftp`
included (`DispatcherUtils.UnsupportedSchemeIsDerived`). For `content`, the
dispatcher copy falls through to the segment when the resolver yields no
name, and the app copy does not (`AppUtils.AgreesWithDispatcher`).

Modules: `Wrappers` (Option, Result), `Platform` (URI and resolver answers),
`ScriptNames` (character classes, normalisation, `split`, the verdict on one
candidate, the reference search), `DispatcherUtils`, `AppUtils`,
`FastIntentDispatcher`.

## Model

| member | source | states |
|---|---|---|
| `ScriptNames.ValidScriptName` | dispatcher/src/main/java/net/sf/fakenames/dispatcher/Utils.java:49-72 | what `isValidScriptName` accepts on a non-null string: every character of an accepted name is an identifier part and the first is not a digit |
| `DispatcherUtils.IsValidScriptName` | dispatcher/src/main/java/net/sf/fakenames/dispatcher/Utils.java:49-72 | true exactly when the input is non-null, non-empty, starts with an identifier-start character and every later character is an identifier part; null and empty give false |
| `AppUtils.IsValidScriptName` | app/src/main/groovy/net/sf/fakenames/app/Utils.java:44-67 | the same characterisation for the app copy: true exactly for a non-null, non-empty identifier |
| `ScriptNames.ValidScriptNameExamples` | dispatcher/src/main/java/net/sf/fakenames/dispatcher/Utils.java:51-71 | `""` and `"1x"` are invalid, `"_x1"` and `"a_B2"` valid, and a dot or a space makes a name invalid |
| `ScriptNames.ValidNameHasNoDotOrSpace` | dispatcher/src/main/java/net/sf/fakenames/dispatcher/Utils.java:58-69 | a valid name contains no `.` and no space, and all its characters are identifier parts |
| `DispatcherUtils.IsSupportedScheme` | dispatcher/src/main/java/net/sf/fakenames/dispatcher/Utils.java:74-87 | true exactly for the five schemes content, resource, file, http, https; a supported scheme is non-empty |
| `DispatcherUtils.SchemeMatchIsCaseSensitive` | dispatcher/src/main/java/net/sf/fakenames/dispatcher/Utils.java:75-85 | `HTTP`, `Content`, `ftp`, the empty string and null are all unsupported |
| `ScriptNames.ReplaceSpaces` | dispatcher/src/main/java/net/sf/fakenames/dispatcher/Utils.java:104 | the result has the input's length, no space, `_` where the input had a space and the input's character everywhere else |
| `ScriptNames.HeadBeforeDot` | dispatcher/src/main/java/net/sf/fakenames/dispatcher/Utils.java:104-106 | the result is a dot-free prefix of the input that ends at the input's end or at a dot |
| `ScriptNames.HeadBeforeDotIsUnique` | dispatcher/src/main/java/net/sf/fakenames/dispatcher/Utils.java:104-106 | any dot-free prefix ending at a dot or at the end is the part before the first dot |
| `ScriptNames.DotTokens` | dispatcher/src/main/java/net/sf/fakenames/dispatcher/Utils.java:104 | the pieces between dots number at least one and the first is the part before the first dot |
| `ScriptNames.DropTrailingEmpty` | dispatcher/src/main/java/net/sf/fakenames/dispatcher/Utils.java:104 | the result is a prefix of the pieces, does not end with an empty piece, and only empty pieces were removed |
| `ScriptNames.DotTokensAllEmpty` | dispatcher/src/main/java/net/sf/fakenames/dispatcher/Utils.java:104 | every piece between the dots is empty exactly when the string consists of dots only |
| `ScriptNames.JavaSplitOnDot` | dispatcher/src/main/java/net/sf/fakenames/dispatcher/Utils.java:104-106 | `split("\\.")` returns no piece, so that `strings[0]` throws, exactly when the input is non-empty and made of dots only; otherwise its first piece, `strings[0]`, is the part before the first dot |
| `ScriptNames.Examine` | dispatcher/src/main/java/net/sf/fakenames/dispatcher/Utils.java:103-108 | a candidate is accepted exactly when the part before the first dot of its space-normalised form is a valid name, and that part is the returned name, with no dot or space; `strings[0]` throws exactly for a non-empty all-dots candidate; null and empty candidates are passed over |
| `ScriptNames.NameFromLastPathSegment` | dispatcher/src/main/java/net/sf/fakenames/dispatcher/Utils.java:122-131 | the segment's accepted name is returned, a passed-over segment gives `""`, and a throwing split escapes as a failure |
| `ScriptNames.AcceptedWithHead` | dispatcher/src/main/java/net/sf/fakenames/dispatcher/Utils.java:103-107 | a candidate whose normalised form starts with a valid name followed by a dot is accepted with that name |
| `ScriptNames.StemBeforeDotIsTheName` | dispatcher/src/main/java/net/sf/fakenames/dispatcher/Utils.java:126-129 | a valid stem followed by a dot and any extension is accepted as the stem, so `hello.world.groovy` gives `hello` |
| `ScriptNames.SpaceBecomesUnderscore` | dispatcher/src/main/java/net/sf/fakenames/dispatcher/Utils.java:101-107 | two parts joined by a space and followed by an extension are accepted joined by `_` when that join is valid, so a display name `My Script.groovy` gives `My_Script` |
| `ScriptNames.DigitFirstIsPassed` | dispatcher/src/main/java/net/sf/fakenames/dispatcher/Utils.java:103-108 | a candidate starting with a digit, such as `123abc.txt`, is passed over and the search moves to the next candidate |
| `ScriptNames.ExampleDotsThrow` | dispatcher/src/main/java/net/sf/fakenames/dispatcher/Utils.java:126 | `...` makes `strings[0]` throw |
| `ScriptNames.FirstAccepted` | dispatcher/src/main/java/net/sf/fakenames/dispatcher/Utils.java:96-131 | finds a name exactly when some candidate is accepted, and the name is that of an accepted candidate preceded only by rejected ones |
| `ScriptNames.FirstAcceptedStep` | dispatcher/src/main/java/net/sf/fakenames/dispatcher/Utils.java:96-121 | the search returns the first candidate's name when it is accepted, and otherwise searches the rest |
| `DispatcherUtils.DeriveNameFromUri` | dispatcher/src/main/java/net/sf/fakenames/dispatcher/Utils.java:89-136 | a null or empty scheme gives `""`; any other returned name is valid and has no dot or space; a failure only comes from an all-dots last path segment under a non-empty scheme |
| `DispatcherUtils.Candidates` | dispatcher/src/main/java/net/sf/fakenames/dispatcher/Utils.java:92-131 | the candidates in the order they are tried: none for a null or empty scheme; for `content` the display name, then the descriptor path, then the last path segment; for any other non-empty scheme the segment alone, which is always last |
| `DispatcherUtils.DeriveIsFirstAcceptedCandidate` | dispatcher/src/main/java/net/sf/fakenames/dispatcher/Utils.java:92-135 | the result is the first accepted candidate of display name, descriptor path, last path segment for `content`, and of the segment alone for any other non-empty scheme; with none accepted it is `""`, or the failure when the segment is all dots |
| `DispatcherUtils.ResolverFailuresAreSwallowed` | dispatcher/src/main/java/net/sf/fakenames/dispatcher/Utils.java:97-121 | a display name or descriptor path that yields no name, whether by failure, emptiness, invalidity or a throwing split, leaves the result as if the resolver had answered nothing |
| `DispatcherUtils.OtherSchemesUseOnlyTheSegment` | dispatcher/src/main/java/net/sf/fakenames/dispatcher/Utils.java:122-131 | for every non-empty scheme other than `content` the result does not depend on the resolver and is the segment's outcome |
| `DispatcherUtils.UnsupportedSchemeIsDerived` | dispatcher/src/main/java/net/sf/fakenames/dispatcher/Utils.java:122-131 | `ftp` is unsupported, yet segment `x.groovy` under it gives `x` |
| `DispatcherUtils.DotsSegmentEscapes` | dispatcher/src/main/java/net/sf/fakenames/dispatcher/Utils.java:122-128 | a `file` URI whose last path segment is `...` makes the call fail, while the corrected deriver gives `""` |
| `DispatcherUtils.DeriveNameCorrected` | dispatcher/src/main/java/net/sf/fakenames/dispatcher/Utils.java:89-136 | never fails; the result is `""` or a valid name with no dot or space, and equals the as-written result whenever that one returns |
| `AppUtils.DeriveNameFromUri` | app/src/main/groovy/net/sf/fakenames/app/Utils.java:69-120 | a null or empty scheme gives `""`; any other returned name is valid and has no dot or space; a failure only comes from an all-dots segment under file, resource or http |
| `AppUtils.Candidates` | app/src/main/groovy/net/sf/fakenames/app/Utils.java:72-116 | the candidates in the order they are tried: the last path segment alone for file, resource and http; the display name, then the descriptor path, for `content`; none for any other or an empty scheme |
| `AppUtils.DeriveIsFirstAcceptedCandidate` | app/src/main/groovy/net/sf/fakenames/app/Utils.java:72-119 | the result is the first accepted candidate among the segment for file, resource and http, and among display name then descriptor path for `content`; there are no candidates otherwise; with none accepted it is `""`, or the failure for an all-dots segment |
| `AppUtils.ContentIgnoresTheSegment` | app/src/main/groovy/net/sf/fakenames/app/Utils.java:88-115 | for `content` the result does not depend on the last path segment, and the call never fails |
| `AppUtils.OtherSchemesGiveNoName` | app/src/main/groovy/net/sf/fakenames/app/Utils.java:75-119 | a non-empty scheme outside file, resource, http and content gives `""` whatever the URI and resolver hold |
| `AppUtils.HttpsGivesNoName` | app/src/main/groovy/net/sf/fakenames/app/Utils.java:75-87 | `https` gives `""` |
| `AppUtils.AgreesWithDispatcher` | app/src/main/groovy/net/sf/fakenames/app/Utils.java:69-120 | both copies agree for an empty scheme and for file, resource and http; for content they agree when the app copy finds a name, and otherwise the dispatcher copy gives the segment's outcome |
| `AppUtils.DotsSegmentEscapes` | app/src/main/groovy/net/sf/fakenames/app/Utils.java:79-84 | a `resource` URI whose last path segment is `..` makes the call fail, while the corrected deriver gives `""` |
| `AppUtils.DeriveNameCorrected` | app/src/main/groovy/net/sf/fakenames/app/Utils.java:69-120 | never fails; the result is `""` or a valid name with no dot or space, and equals the as-written result whenever that one returns |
| `FastIntentDispatcher.StartScriptPicker` | dispatcher/src/main/java/net/sf/fakenames/dispatcher/FastIntentDispatcher.java:87-97 | the request is VIEW on the given URI, addressed to the script picker of the package, with FLAG_ACTIVITY_FORWARD_RESULT, and has BROWSABLE exactly when the original had it or the scheme starts with `http` |
| `FastIntentDispatcher.HandleIntent` | dispatcher/src/main/java/net/sf/fakenames/dispatcher/FastIntentDispatcher.java:53-85 | a null intent or action is rejected without a toast; the intent is forwarded exactly when it is a VIEW with a supported data URI or a SEND with a supported stream URI, and that URI is what is forwarded; the unsupported-action toast is shown exactly for a non-null action other than VIEW and SEND |
| `FastIntentDispatcher.OnCreate` | dispatcher/src/main/java/net/sf/fakenames/dispatcher/FastIntentDispatcher.java:42-51 | the result code is UNSUPPORTED_URI exactly when the intent is rejected, none is set when it is forwarded, and the activity always finishes |
| `FastIntentDispatcher.ForwardedRequestIsWellFormed` | dispatcher/src/main/java/net/sf/fakenames/dispatcher/FastIntentDispatcher.java:59-90 | every forwarded request is VIEW, addressed to the script picker of the package, carries FLAG_ACTIVITY_FORWARD_RESULT and has a supported scheme |
| `FastIntentDispatcher.HttpPrefixAmongSupported` | dispatcher/src/main/java/net/sf/fakenames/dispatcher/FastIntentDispatcher.java:92 | among supported schemes, starting with `http` means being `http` or `https` |
| `FastIntentDispatcher.BrowsableForWebOrBrowsableOrigin` | dispatcher/src/main/java/net/sf/fakenames/dispatcher/FastIntentDispatcher.java:92-94 | a forwarded request is browsable exactly when the original was or its URI is http or https |
| `FastIntentDispatcher.EachActionReadsOneUri` | dispatcher/src/main/java/net/sf/fakenames/dispatcher/FastIntentDispatcher.java:59-75 | a VIEW decision does not depend on the stream URI, and a SEND decision does not depend on the data URI |

## Left out

- `DispatcherUtils.DeriveNameFromUri`, `AppUtils.DeriveNameFromUri`: a null `Uri` is not modelled; the parameter is never null, so the exception that `sourceUri.getScheme()` throws on a null reference (dispatcher/src/main/java/net/sf/fakenames/dispatcher/Utils.java:90, app/src/main/groovy/net/sf/fakenames/app/Utils.java:70) has no counterpart.
- `openStreamForUri` (dispatcher `Utils.java`): stream and network I/O.
- `ContentResolver.query`, `Cursor`, `openFileDescriptor`, `FdCompat.getFdPath` and the closing of cursor and descriptor are foreign Android calls. Their outcome is the input `ContentAnswers`, which also covers a `close()` that throws after a valid candidate.
- `ScriptNames.IsJavaIdentifierStart` and `ScriptNames.IsJavaIdentifierPart` are exact only for characters up to U+00FF (ASCII and Latin-1 letters, currency signs, `_`, digits, ignorable controls, the soft hyphen). Every character above U+00FF counts as neither, though Java accepts many of them.
- UTF-16: Dafny strings here are sequences of Unicode scalar values, so `toCharArray` surrogate pairs are not modelled.
- A `getParcelableExtra(EXTRA_STREAM)` whose value is not a `Uri` (a ClassCastException) is not modelled: the stream is a URI or null.
- Toasts, `startActivity`, `setResult` and `finish` are not performed: they are described as data in `Routing` and `Completion`.
- The asynchronous query handler (`api/src/main/groovy/internal/SturdyQueryHandler.java`): cross-thread message re-delivery over a framework class; concurrency is outside this model.
- The database provider and schema (`db/src/main/java/net/sf/fakenames/db/ScriptProvider.java`, `ScriptContract.java`): SQLite, filesystem cleanup and annotation-only declarations.

## Findings

| source | as written | input that shows it | evidently intended | confidence | as-written member | corrected member |
|---|---|---|---|---|---|---|
| dispatcher/src/main/java/net/sf/fakenames/dispatcher/Utils.java:126-128 | `split("\\.")[0]` on the last path segment sits outside any `try`, and Java's `split` returns an empty array for a string of dots, so `strings[0]` throws ArrayIndexOutOfBoundsException out of `deriveNameFromUri` | URI `file:///tmp/...`, last path segment `...` | no name (`""`), as for any other rejected candidate; the two content candidates already swallow the same exception | medium, not executed | `DispatcherUtils.DotsSegmentEscapes` | `DispatcherUtils.DeriveNameCorrected` |
| app/src/main/groovy/net/sf/fakenames/app/Utils.java:82-84 | the same unguarded `strings[0]` for `file`, `resource` and `http` | URI `resource://pkg/..`, last path segment `..` | no name (`""`) | medium, not executed | `AppUtils.DotsSegmentEscapes` | `AppUtils.DeriveNameCorrected` |
