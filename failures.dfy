/**
 * What the view models learn from a repository call: an HTTP response
 * (Retrofit's `Response`) or an exception, and the ordered `when` they use
 * to turn an exception into one of four kinds of user message
 * (viewmodel/RecipeViewModel.kt and viewmodel/CourseViewModel.kt all share
 * the same four guards).
 */
module Failures {
  import opened Wrappers
  import opened Text

  /** The exception classes the guards test with `is`. */
  datatype ExnKind = ConnectError | UnknownHost | OtherError

  /** An exception: its class and its nullable `message`. */
  datatype Exn = Exn(kind: ExnKind, message: Option<string>)

  /** An HTTP response: `code()` and `message()`. */
  datatype Response = Response(code: int, message: string)

  /** The outcome of a suspending repository call that returns a response. */
  datatype Call = Returned(response: Response) | Threw(e: Exn)

  /**
   * The outcome of `getAllRecipes()` / `getAllCourses()`: the network rows
   * (then also written to the table), the table's rows returned in place
   * of a failed request, or an exception escaping from the local database.
   */
  datatype Load<T> = Fetched(items: seq<T>) | Fallback | Broken(e: Exn)

  /** `response.isSuccessful`: a 2xx status. */
  predicate IsSuccessful(r: Response) {
    200 <= r.code <= 299
  }

  const NotFound := 404

  /** `"${e.message}"`: a null message is printed as "null". */
  function MessageText(e: Exn): string {
    e.message.GetOr("null")
  }

  /** `e.message?.contains(t, ignoreCase = true) == true`. */
  predicate MessageMentions(e: Exn, t: string) {
    e.message.Some? && ContainsIgnoreCase(e.message.value, t)
  }

  /** The phrases the guards look for in a message. */
  const FailedToConnect := "Failed to connect"
  const ConnectionRefused := "Connection refused"
  const ConnectionReset := "Connection reset"
  const TimeoutPhrase := "timeout"

  /** The first guard: the server refused or dropped the connection. */
  predicate ConnectionFailed(e: Exn) {
    || e.kind == ConnectError
    || MessageMentions(e, FailedToConnect)
    || MessageMentions(e, ConnectionRefused)
    || MessageMentions(e, ConnectionReset)
  }

  /** Which branch of the `when` an exception takes. */
  datatype Cause = Offline | TimedOut | NoNetwork | Unexpected

  function Classify(e: Exn): Cause {
    FirstMatch(ConnectionFailed(e), MessageMentions(e, TimeoutPhrase), e.kind == UnknownHost)
  }

  /** The `when` itself, on the outcomes of its three guards. */
  function FirstMatch(offline: bool, timedOut: bool, unknownHost: bool): Cause {
    if offline then Offline
    else if timedOut then TimedOut
    else if unknownHost then NoNetwork
    else Unexpected
  }

  /** The branches are tried in order and the first that holds wins. */
  lemma ClassifyPrecedence(e: Exn)
    ensures Classify(e) == Offline <==> ConnectionFailed(e)
    ensures Classify(e) == TimedOut <==> !ConnectionFailed(e) && MessageMentions(e, TimeoutPhrase)
    ensures Classify(e) == NoNetwork <==> !ConnectionFailed(e) && !MessageMentions(e, TimeoutPhrase) && e.kind == UnknownHost
    ensures Classify(e) == Unexpected <==> !ConnectionFailed(e) && !MessageMentions(e, TimeoutPhrase) && e.kind != UnknownHost
  {
    FirstMatchPrecedence(ConnectionFailed(e), MessageMentions(e, TimeoutPhrase), e.kind == UnknownHost);
  }

  lemma FirstMatchPrecedence(offline: bool, timedOut: bool, unknownHost: bool)
    ensures FirstMatch(offline, timedOut, unknownHost) == Offline <==> offline
    ensures FirstMatch(offline, timedOut, unknownHost) == TimedOut <==> !offline && timedOut
    ensures FirstMatch(offline, timedOut, unknownHost) == NoNetwork <==> !offline && !timedOut && unknownHost
    ensures FirstMatch(offline, timedOut, unknownHost) == Unexpected <==> !offline && !timedOut && !unknownHost
  {
  }

  /** A host lookup failure whose message mentions a timeout is reported as a timeout, not as a network error. */
  lemma TimeoutBeatsUnknownHost()
    ensures Classify(Exn(UnknownHost, Some(TimeoutPhrase))) == TimedOut
  {
    var e := Exn(UnknownHost, Some(TimeoutPhrase));
    MentionsItself(TimeoutPhrase);
    NotInShorter(TimeoutPhrase, FailedToConnect);
    NotInShorter(TimeoutPhrase, ConnectionRefused);
    NotInShorter(TimeoutPhrase, ConnectionReset);
    FirstMatchPrecedence(ConnectionFailed(e), MessageMentions(e, TimeoutPhrase), e.kind == UnknownHost);
  }

  lemma MentionsItself(m: string)
    ensures MessageMentions(Exn(UnknownHost, Some(m)), m)
  {
    assert OccursAt(Lowercase(m), Lowercase(m), 0);
  }

  lemma NotInShorter(s: string, t: string)
    requires |s| < |t|
    ensures !ContainsIgnoreCase(s, t)
  {
  }

  /** A connect exception is reported as "offline" whatever its message says. */
  lemma ConnectExceptionIsOffline(m: Option<string>)
    ensures Classify(Exn(ConnectError, m)) == Offline
  {
  }

  /** A message-less exception of another class is never offline or a timeout. */
  lemma NoMessageNoMatch(k: ExnKind)
    requires k != ConnectError
    ensures Classify(Exn(k, None)) == if k == UnknownHost then NoNetwork else Unexpected
  {
  }
}
