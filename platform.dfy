/** The few Android values the core reads, as plain data.
 *  A `null` reference is `None`; a call into the framework that may fail
 *  (a content-resolver query, opening a file descriptor) is replaced by the
 *  answer it gave, `None` standing for every way it can fail. */
module Platform {
  import opened Wrappers

  /** An `android.net.Uri`, reduced to what `getScheme()` and `getLastPathSegment()` return. */
  datatype Uri = Uri(scheme: Option<string>, lastPathSegment: Option<string>)

  /** What the content resolver yields for one `content:` URI:
   *  `displayName` is the `DISPLAY_NAME` column of the first row of the query,
   *  `None` when the query throws, returns no cursor, has no row or holds null,
   *  and also when closing the cursor throws after a valid name was read (the
   *  exception is caught and the name is lost);
   *  `descriptorPath` is the file path `FdCompat.getFdPath` recovers from the
   *  descriptor opened for reading, `None` when opening, recovering or closing fails. */
  datatype ContentAnswers = ContentAnswers(displayName: Option<string>, descriptorPath: Option<string>)

  /** The negation of `TextUtils.isEmpty`: neither null nor of length zero. */
  predicate IsNonEmpty(s: Option<string>) {
    s.Some? && s.value != ""
  }
}
