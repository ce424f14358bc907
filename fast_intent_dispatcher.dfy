/** `FastIntentDispatcher`: the activity that receives VIEW and SEND
 *  requests, checks their URI and forwards a VIEW request to the script
 *  picker, or reports the URI as unsupported. Its routing decision is a
 *  function of the incoming intent; showing toasts, starting the activity,
 *  setting the result and finishing are the outcome it describes. */
module FastIntentDispatcher {
  import opened Wrappers
  import opened Platform
  import DispatcherUtils

  const ACTION_VIEW: string := "android.intent.action.VIEW"
  const ACTION_SEND: string := "android.intent.action.SEND"
  const CATEGORY_BROWSABLE: string := "android.intent.category.BROWSABLE"
  const FLAG_ACTIVITY_FORWARD_RESULT: int := 0x0200_0000
  const RESULT_FIRST_USER: int := 1
  /** The result code of a request the dispatcher cannot serve. */
  const UNSUPPORTED_URI: int := RESULT_FIRST_USER
  const SCRIPT_PICKER: string := "net.sf.fakenames.app.ScriptPicker"

  /** The parts of an incoming `Intent` that routing reads: its action, its
   *  data URI, its `EXTRA_STREAM` URI and its categories. */
  datatype Intent = Intent(action: Option<string>, data: Option<Uri>, extraStream: Option<Uri>, categories: set<string>)

  /** The explicit intent sent to the script picker. */
  datatype ViewRequest = ViewRequest(
    action: string, data: Uri, packageName: string, className: string, flags: int, categories: set<string>)

  /** The two toasts a rejection may show. */
  datatype Toast = UnsupportedAction | InvalidArguments

  /** What `handleIntent` decides: reject (with the toast shown, if any), or
   *  forward a request to the script picker. */
  datatype Routing = Rejected(toast: Option<Toast>) | Forwarded(request: ViewRequest)

  /** What `onCreate` does: route, set `UNSUPPORTED_URI` as result when
   *  rejected, and finish in every case. */
  datatype Completion = Completion(routing: Routing, resultCode: Option<int>, finishing: bool)

  predicate StartsWith(s: string, prefix: string) {
    prefix <= s
  }

  /** A VIEW request the dispatcher accepts: a data URI with a supported scheme. */
  predicate AcceptsView(intent: Intent) {
    intent.action == Some(ACTION_VIEW) && intent.data.Some? && DispatcherUtils.IsSupportedScheme(intent.data.value.scheme)
  }

  /** A SEND request the dispatcher accepts: a stream URI with a supported scheme. */
  predicate AcceptsSend(intent: Intent) {
    intent.action == Some(ACTION_SEND) && intent.extraStream.Some?
    && DispatcherUtils.IsSupportedScheme(intent.extraStream.value.scheme)
  }

  /** `startScriptPicker`: a VIEW intent for `data`, addressed to the script
   *  picker of this package, forwarding its result, and browsable when the
   *  original was or the scheme starts with `http`. */
  function StartScriptPicker(original: Intent, data: Uri, packageName: string): (request: ViewRequest)
    requires data.scheme.Some?
    ensures request.action == ACTION_VIEW && request.data == data
    ensures request.packageName == packageName && request.className == SCRIPT_PICKER
    ensures request.flags == FLAG_ACTIVITY_FORWARD_RESULT
    ensures request.categories <= {CATEGORY_BROWSABLE}
    ensures CATEGORY_BROWSABLE in request.categories <==>
              CATEGORY_BROWSABLE in original.categories || StartsWith(data.scheme.value, "http")
  {
    var browsable := CATEGORY_BROWSABLE in original.categories || StartsWith(data.scheme.value, "http");
    ViewRequest(ACTION_VIEW, data, packageName, SCRIPT_PICKER, FLAG_ACTIVITY_FORWARD_RESULT,
                if browsable then {CATEGORY_BROWSABLE} else {})
  }

  /** `handleIntent`. A null intent or action is rejected silently; VIEW
   *  forwards its data URI and SEND its stream URI when that URI's scheme is
   *  supported, and otherwise shows "invalid arguments"; any other action
   *  shows "unsupported action". */
  function HandleIntent(intent: Option<Intent>, packageName: string): (r: Routing)
    ensures intent.None? || intent.value.action.None? ==> r == Rejected(None)
    ensures r.Forwarded? <==> intent.Some? && (AcceptsView(intent.value) || AcceptsSend(intent.value))
    ensures r.Forwarded? && AcceptsView(intent.value) ==> r.request.data == intent.value.data.value
    ensures r.Forwarded? && AcceptsSend(intent.value) ==> r.request.data == intent.value.extraStream.value
    ensures r == Rejected(Some(UnsupportedAction)) <==>
              intent.Some? && intent.value.action.Some? && intent.value.action.value !in {ACTION_VIEW, ACTION_SEND}
  {
    match intent
    case None => Rejected(None)
    case Some(i) =>
      match i.action
      case None => Rejected(None)
      case Some(action) =>
        if action == ACTION_VIEW then
          if i.data.None? || !DispatcherUtils.IsSupportedScheme(i.data.value.scheme) then Rejected(Some(InvalidArguments))
          else Forwarded(StartScriptPicker(i, i.data.value, packageName))
        else if action == ACTION_SEND then
          if i.extraStream.None? || !DispatcherUtils.IsSupportedScheme(i.extraStream.value.scheme) then Rejected(Some(InvalidArguments))
          else Forwarded(StartScriptPicker(i, i.extraStream.value, packageName))
        else Rejected(Some(UnsupportedAction))
  }

  /** `onCreate`: the result is `UNSUPPORTED_URI` exactly when the intent is
   *  rejected, no result is set when it is forwarded, and the activity
   *  finishes either way. */
  function OnCreate(intent: Option<Intent>, packageName: string): (c: Completion)
    ensures c.finishing
    ensures c.routing == HandleIntent(intent, packageName)
    ensures c.resultCode == Some(UNSUPPORTED_URI) <==> c.routing.Rejected?
    ensures c.routing.Forwarded? ==> c.resultCode.None?
  {
    var routing := HandleIntent(intent, packageName);
    Completion(routing, if routing.Rejected? then Some(UNSUPPORTED_URI) else None, true)
  }

  /** Whatever is forwarded is a VIEW request for the script picker with a
   *  supported URI, carrying FLAG_ACTIVITY_FORWARD_RESULT. */
  lemma ForwardedRequestIsWellFormed(intent: Option<Intent>, packageName: string)
    requires HandleIntent(intent, packageName).Forwarded?
    ensures var q := HandleIntent(intent, packageName).request;
      q.action == ACTION_VIEW && q.className == SCRIPT_PICKER && q.packageName == packageName
      && q.flags == FLAG_ACTIVITY_FORWARD_RESULT && DispatcherUtils.IsSupportedScheme(q.data.scheme)
  {
  }

  /** Among the supported schemes, starting with `http` means `http` or `https`. */
  lemma HttpPrefixAmongSupported(scheme: string)
    requires DispatcherUtils.IsSupportedScheme(Some(scheme))
    ensures StartsWith(scheme, "http") <==> scheme == "http" || scheme == "https"
  {
    assert StartsWith("http", "http") && StartsWith("https", "http");
    if StartsWith(scheme, "http") {
      assert scheme[..4] == "http";
      assert scheme != "content" && scheme != "file" by {
        assert scheme[0] == 'h';
      }
      assert scheme != "resource" by {
        assert scheme[0] != "resource"[0];
      }
    }
  }

  /** A forwarded request is browsable exactly when the original was, or
   *  the forwarded URI is `http` or `https`. */
  lemma BrowsableForWebOrBrowsableOrigin(intent: Intent, packageName: string)
    requires HandleIntent(Some(intent), packageName).Forwarded?
    ensures var q := HandleIntent(Some(intent), packageName).request;
      CATEGORY_BROWSABLE in q.categories <==>
        CATEGORY_BROWSABLE in intent.categories || q.data.scheme.value in {"http", "https"}
  {
    var q := HandleIntent(Some(intent), packageName).request;
    HttpPrefixAmongSupported(q.data.scheme.value);
  }

  /** A VIEW request is decided by its data URI alone, a SEND request by its
   *  stream URI alone: the other URI field is never read. */
  lemma EachActionReadsOneUri(intent: Intent, packageName: string, other: Option<Uri>)
    ensures intent.action == Some(ACTION_VIEW) ==>
      HandleIntent(Some(intent), packageName) == HandleIntent(Some(intent.(extraStream := other)), packageName)
    ensures intent.action == Some(ACTION_SEND) ==>
      HandleIntent(Some(intent), packageName) == HandleIntent(Some(intent.(data := other)), packageName)
  {
  }
}
