/** Go error values as webspaced builds them: a sentinel created once with
    `errors.New`, a foreign error coming from a library (LXD, IAM, Redis, Kubernetes),
    or a `fmt.Errorf` wrapping of another error with `%w`. `errors.Is` follows the
    wrapping down to the root and compares identities, never texts. */
module Errors {
  import opened Util

  /** The sentinels of `pkg/util`, followed by the older generation's own sentinels
      (declared in its webspace package: same texts, different identities). */
  datatype Sentinel =
    | NotFound | MethodNotAllowed | TokenRequired | AdminRequired
    | GenericNotFound | Exists | Used | NotRunning | Running
    | DomainUnverified | DefaultDomain | TooManyPorts | BadPort
    | Interface | Address | BadValue | UIDMismatch | TraefikProvider | Websocket | SSHKey
    | WsNotFound | WsExists | WsNotRunning | WsRunning
    | WsDomainUnverified | WsUsed | WsTooManyPorts | WsBadPort
    | WsDefaultDomain | WsBadValue

  datatype Error =
    | Root(sentinel: Sentinel)
    | Foreign(msg: string)
    | Wrapped(prefix: string, inner: Error, suffix: string)

  /** The `errors.New` text of each sentinel. */
  function Text(s: Sentinel): string {
    match s
    case NotFound => "API endpoint not found"
    case MethodNotAllowed => "method not allowed on API endpoint"
    case TokenRequired => "token required for this endpoint"
    case AdminRequired => "only admin users can make use of this endpoint"
    case GenericNotFound => "not found"
    case Exists => "already exists"
    case Used => "used by a webspace"
    case NotRunning => "not running"
    case Running => "already running"
    case DomainUnverified => "verification failed"
    case DefaultDomain => "cannot remove the default domain"
    case TooManyPorts => "port forward limit reached"
    case BadPort => "invalid port"
    case Interface => "default network interface not present"
    case Address => "IPv4 address not found"
    case BadValue => "invalid value for configuration option"
    case UIDMismatch => "user id doesn't match provided value"
    case TraefikProvider => "invalid Traefik provider"
    case Websocket => "this endpoint supports websocket communication only"
    // Referenced by the create endpoint but declared in none of the files: its text
    // is not modelled.
    case SSHKey => ""
    case WsNotFound => "not found"
    case WsExists => "already exists"
    case WsNotRunning => "not running"
    case WsRunning => "already running"
    case WsDomainUnverified => "verification failed"
    case WsUsed => "used by a webspace"
    case WsTooManyPorts => "port forward limit reached"
    case WsBadPort => "invalid port"
    // Referenced by the older server and manager but declared in none of their files;
    // the current generation's texts are used.
    case WsDefaultDomain => "cannot remove the default domain"
    case WsBadValue => "invalid value for configuration option"
  }

  /** `err.Error()`: a wrapping contributes its format text around the inner message. */
  function Message(e: Error): string {
    match e
    case Root(s) => Text(s)
    case Foreign(m) => m
    case Wrapped(p, inner, x) => p + Message(inner) + x
  }

  /** `errors.Is(e, s)`. */
  predicate Is(e: Error, s: Sentinel) {
    match e
    case Root(t) => t == s
    case Foreign(_) => false
    case Wrapped(_, inner, _) => Is(inner, s)
  }

  /** The sentinel at the bottom of the wrapping chain, if the chain ends in one. */
  function RootOf(e: Error): Option<Sentinel> {
    match e
    case Root(s) => Some(s)
    case Foreign(_) => None
    case Wrapped(_, inner, _) => RootOf(inner)
  }

  /** `fmt.Errorf(prefix + "%w", e)`. */
  function Wrap(prefix: string, e: Error): Error {
    Wrapped(prefix, e, "")
  }

  /** A wrapping prefixes the message and keeps the chain's sentinel. */
  lemma WrapKeeps(prefix: string, e: Error)
    ensures Message(Wrap(prefix, e)) == prefix + Message(e)
    ensures RootOf(Wrap(prefix, e)) == RootOf(e)
  {
  }

  lemma {:induction false} IsMeansRoot(e: Error)
    ensures forall s :: Is(e, s) <==> RootOf(e) == Some(s)
  {
    match e
    case Root(_) =>
    case Foreign(_) =>
    case Wrapped(_, inner, _) => IsMeansRoot(inner);
  }

  // ---------------------------------------------------------------------------
  // HTTP status of an error (pkg/util/errors.go)

  /** `ErrToStatus`: the first matching group of the cascade wins. */
  function ErrToStatus(e: Error): (status: int)
    ensures status in {400, 401, 404, 409, 500}
  {
    if Is(e, TokenRequired) || Is(e, AdminRequired) then 401
    else if Is(e, NotFound) || Is(e, GenericNotFound) || Is(e, NotRunning) then 404
    else if Is(e, Exists) || Is(e, Running) || Is(e, Used) then 409
    else if Is(e, DomainUnverified) || Is(e, BadPort) || Is(e, TooManyPorts)
      || Is(e, DefaultDomain) || Is(e, BadValue) || Is(e, Websocket) then 400
    else 500
  }

  /** The status each sentinel stands for, as a flat table. */
  function SentinelStatus(s: Sentinel): int {
    match s
    case TokenRequired | AdminRequired => 401
    case NotFound | GenericNotFound | NotRunning => 404
    case Exists | Running | Used => 409
    case DomainUnverified | BadPort | TooManyPorts | DefaultDomain | BadValue | Websocket => 400
    case _ => 500
  }

  /** The cascade agrees with the table applied to the chain's root sentinel: wrapping
      never changes the status, and a foreign error is always a server error. */
  lemma {:induction false} ErrToStatusByRoot(e: Error)
    ensures ErrToStatus(e) == (match RootOf(e) case Some(s) => SentinelStatus(s) case None => 500)
  {
    match e
    case Root(s) => RootStatus(s);
    case Foreign(_) =>
    case Wrapped(_, inner, _) => ErrToStatusByRoot(inner);
  }

  /** A bare sentinel answers its table entry. */
  lemma RootStatus(s: Sentinel)
    ensures ErrToStatus(Root(s)) == SentinelStatus(s)
  {
    match SentinelStatus(s)
    case 401 => Status401(s);
    case 404 => Status404(s);
    case 409 => Status409(s);
    case 400 => Status400(s);
    case _ => Status500(s);
  }

  // One group of the cascade at a time: each group's sentinels, and only they, stop there.

  lemma Status401(s: Sentinel)
    requires SentinelStatus(s) == 401
    ensures ErrToStatus(Root(s)) == 401
  {
    assert s == TokenRequired || s == AdminRequired;
  }

  lemma Status404(s: Sentinel)
    requires SentinelStatus(s) == 404
    ensures ErrToStatus(Root(s)) == 404
  {
    assert s == NotFound || s == GenericNotFound || s == NotRunning;
  }

  lemma Status409(s: Sentinel)
    requires SentinelStatus(s) == 409
    ensures ErrToStatus(Root(s)) == 409
  {
    assert s == Exists || s == Running || s == Used;
  }

  lemma Status400(s: Sentinel)
    requires SentinelStatus(s) == 400
    ensures ErrToStatus(Root(s)) == 400
  {
    assert s == DomainUnverified || s == BadPort || s == TooManyPorts || s == DefaultDomain
      || s == BadValue || s == Websocket;
  }

  lemma Status500(s: Sentinel)
    requires SentinelStatus(s) !in {400, 401, 404, 409}
    ensures ErrToStatus(Root(s)) == 500
  {
    assert !Is(Root(s), TokenRequired) && !Is(Root(s), AdminRequired) && !Is(Root(s), NotFound)
      && !Is(Root(s), GenericNotFound) && !Is(Root(s), NotRunning) && !Is(Root(s), Exists)
      && !Is(Root(s), Running) && !Is(Root(s), Used) && !Is(Root(s), DomainUnverified)
      && !Is(Root(s), BadPort) && !Is(Root(s), TooManyPorts) && !Is(Root(s), DefaultDomain)
      && !Is(Root(s), BadValue) && !Is(Root(s), Websocket);
  }

  // ---------------------------------------------------------------------------
  // LXD error translation (both generations)

  const LxdExistsText := "Create instance: Add instance info to the database: This instance already exists"
  const LxdStoppedText := "The container is already stopped"
  const LxdRunningText := "Common start logic: The container is already running"

  /** The four LXD failures `convertLXDError` recognises, by their exact text (the
      lengths are compared first, as Go's string comparison does). */
  datatype LxdFailure = LxdMissing | LxdExisting | LxdStopped | LxdStarted

  function LxdFailureOf(m: string): Option<LxdFailure> {
    if m == "not found" || m == "No such object" then Some(LxdMissing)
    else if |m| == |LxdExistsText| && m == LxdExistsText then Some(LxdExisting)
    else if |m| == |LxdStoppedText| && m == LxdStoppedText then Some(LxdStopped)
    else if |m| == |LxdRunningText| && m == LxdRunningText then Some(LxdStarted)
    else None
  }

  /** `convertLXDError` of the current generation: it maps four LXD messages, by text,
      onto the `pkg/util` sentinels and passes everything else through. */
  function ConvertLXDError(e: Error): Error {
    match LxdFailureOf(Message(e))
    case None => e
    case Some(LxdMissing) => Root(GenericNotFound)
    case Some(LxdExisting) => Root(Exists)
    case Some(LxdStopped) => Root(NotRunning)
    case Some(LxdStarted) => Root(Running)
  }

  /** The translation table, message by message. */
  lemma ConvertLXDErrorTable(e: Error)
    ensures Message(e) in {"not found", "No such object"} ==> ConvertLXDError(e) == Root(GenericNotFound)
    ensures Message(e) == LxdExistsText ==> ConvertLXDError(e) == Root(Exists)
    ensures Message(e) == LxdStoppedText ==> ConvertLXDError(e) == Root(NotRunning)
    ensures Message(e) == LxdRunningText ==> ConvertLXDError(e) == Root(Running)
    ensures Message(e) !in {"not found", "No such object", LxdExistsText, LxdStoppedText, LxdRunningText}
      ==> ConvertLXDError(e) == e
  {
  }

  /** Translating twice is translating once: every sentinel it produces translates to
      itself, so the translation can be applied defensively at any layer. */
  lemma {:induction false} ConvertLXDErrorIdempotent(e: Error)
    ensures ConvertLXDError(ConvertLXDError(e)) == ConvertLXDError(e)
  {
    var r := ConvertLXDError(e);
    if r != e {
      assert Message(r) in {"not found", "already exists", "not running", "already running"};
      ConvertLXDErrorTable(r);
    }
  }

  /** Whatever the message, a translated error has a status: the four LXD texts
      become 404/409/404/409, anything else keeps the status it had. */
  lemma {:induction false} ConvertLXDErrorStatus(e: Error)
    ensures Message(e) in {"not found", "No such object", LxdStoppedText} ==> ErrToStatus(ConvertLXDError(e)) == 404
    ensures Message(e) in {LxdExistsText, LxdRunningText} ==> ErrToStatus(ConvertLXDError(e)) == 409
    ensures Message(e) !in {"not found", "No such object", LxdExistsText, LxdStoppedText, LxdRunningText}
      ==> ErrToStatus(ConvertLXDError(e)) == ErrToStatus(e)
  {
    ConvertLXDErrorTable(e);
    match LxdFailureOf(Message(e))
    case None =>
    case Some(LxdMissing) => Status404(GenericNotFound);
    case Some(LxdExisting) => Status409(Exists);
    case Some(LxdStopped) => Status404(NotRunning);
    case Some(LxdStarted) => Status409(Running);
  }

  /** The older generation's `convertLXDError`: the same table onto its own sentinels. */
  function ConvertLXDErrorDraft(e: Error): Error {
    match LxdFailureOf(Message(e))
    case None => e
    case Some(LxdMissing) => Root(WsNotFound)
    case Some(LxdExisting) => Root(WsExists)
    case Some(LxdStopped) => Root(WsNotRunning)
    case Some(LxdStarted) => Root(WsRunning)
  }

  /** The older translation table, message by message. */
  lemma ConvertLXDErrorDraftTable(e: Error)
    ensures Message(e) in {"not found", "No such object"} ==> ConvertLXDErrorDraft(e) == Root(WsNotFound)
    ensures Message(e) == LxdExistsText ==> ConvertLXDErrorDraft(e) == Root(WsExists)
    ensures Message(e) == LxdStoppedText ==> ConvertLXDErrorDraft(e) == Root(WsNotRunning)
    ensures Message(e) == LxdRunningText ==> ConvertLXDErrorDraft(e) == Root(WsRunning)
    ensures Message(e) !in {"not found", "No such object", LxdExistsText, LxdStoppedText, LxdRunningText}
      ==> ConvertLXDErrorDraft(e) == e
  {
  }

  /** The two generations translate the same LXD failures to errors with the same text. */
  lemma {:induction false} ConvertGenerationsAgree(e: Error)
    ensures Message(ConvertLXDError(e)) == Message(ConvertLXDErrorDraft(e))
  {
    match LxdFailureOf(Message(e))
    case None =>
    case Some(LxdMissing) =>
    case Some(LxdExisting) =>
    case Some(LxdStopped) =>
    case Some(LxdStarted) =>
  }

  /** The older generation's translations are sentinels the current status table does
      not know: read through `ErrToStatus` they are server errors. */
  lemma {:induction false} ConvertDraftStatus(e: Error)
    ensures ErrToStatus(ConvertLXDErrorDraft(e)) == 500 || ConvertLXDErrorDraft(e) == e
  {
    match LxdFailureOf(Message(e))
    case None =>
    case Some(LxdMissing) => RootStatus(WsNotFound);
    case Some(LxdExisting) => RootStatus(WsExists);
    case Some(LxdStopped) => RootStatus(WsNotRunning);
    case Some(LxdStarted) => RootStatus(WsRunning);
  }
}
