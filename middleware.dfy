/** The request middlewares of the current generation's HTTP server
    (internal/server/util.go): `claimsMiddleware` takes the bearer token out of the
    `Authorization` header and its unverified claims; `authMiddleware` validates
    the token with IAM, checks the admin claim and fetches the user the request is
    about; `getWebspaceMiddleware` fetches that user's webspace. Each either passes
    the request on with more context or answers it. */
module Middleware {
  import opened Util
  import opened Errors
  import opened Http
  import W = Webspace
  import M = Manager

  /** A middleware's decision: call the next handler with this context, or answer. */
  datatype Outcome<C> = Next(context: C) | Respond(reply: Reply<()>)

  // ---------------------------------------------------------------------------
  // `tokenHeaderRegex`: ^Bearer\s+(\S+)$

  predicate AllSpace(s: string) {
    forall i :: 0 <= i < |s| ==> IsSpace(s[i])
  }

  /** The length of the longest all-whitespace prefix. */
  function LeadingSpaces(s: string): (k: nat)
    ensures k <= |s| && AllSpace(s[..k]) && (k < |s| ==> !IsSpace(s[k]))
  {
    if s == [] || !IsSpace(s[0]) then 0
    else
      var k := 1 + LeadingSpaces(s[1..]);
      assert s[..k] == [s[0]] + s[1..][..k - 1];
      k
  }

  lemma {:induction false} LeadingSpacesOf(w: string, t: string)
    requires AllSpace(w) && (t != [] ==> !IsSpace(t[0]))
    ensures LeadingSpaces(w + t) == |w|
    decreases |w|
  {
    if w != [] {
      assert (w + t)[1..] == w[1..] + t;
      LeadingSpacesOf(w[1..], t);
    } else {
      assert w + t == t;
    }
  }

  /** The token the header's match captures: "Bearer", one or more whitespace
      characters, then a non-empty token without whitespace up to the end. */
  function BearerToken(header: string): (token: Option<string>)
    ensures token.Some? ==> token.value != [] && NoSpace(token.value)
    ensures token.Some? ==>
      var k := |header| - |token.value|;
      k > 6 && header[..6] == "Bearer" && AllSpace(header[6..k]) && header[k..] == token.value
  {
    if |header| < 6 || header[..6] != "Bearer" then None
    else
      var rest := header[6..];
      var k := LeadingSpaces(rest);
      if k == 0 || k == |rest| || !NoSpace(rest[k..]) then None
      else
        assert header[6..|header| - |rest[k..]|] == rest[..k];
        Some(rest[k..])
  }

  /** Every header of the matching shape yields its token: with the guarantee of
      `BearerToken`, the header matches exactly when it has this shape. */
  lemma BearerTokenRoundTrip(w: string, t: string)
    requires w != [] && AllSpace(w) && t != [] && NoSpace(t)
    ensures BearerToken("Bearer" + w + t) == Some(t)
  {
    var h := "Bearer" + w + t;
    assert h[..6] == "Bearer";
    assert h[6..] == w + t;
    LeadingSpacesOf(w, t);
    assert (w + t)[|w|..] == t;
  }

  /** Headers that do not match: another scheme, no separator, no token, and a
      token followed by more words. */
  lemma BearerTokenRefuses()
    ensures BearerToken("") == None && BearerToken("Basic abc") == None
    ensures BearerToken("Bearerabc") == None && BearerToken("Bearer ") == None
    ensures BearerToken("Bearer a b") == None
  {
    assert "Bearer a b"[6..] == " a b";
    assert " a b"[1..] == "a b";
    assert LeadingSpaces(" a b") == 1;
    assert !NoSpace(" a b"[1..]) by { assert IsSpace(" a b"[1..][1]); }
    assert "Bearer "[6..] == " ";
    assert " "[1..] == "";
    assert "Bearerabc"[6..] == "abc";
  }

  // ---------------------------------------------------------------------------
  // claimsMiddleware

  datatype Claims = Claims(subject: string, isAdmin: bool)

  /** What the request context carries after `claimsMiddleware`: no token at all,
      or a token together with its claims (never one without the other). */
  datatype Credentials = Anonymous | Bearer(token: string, claims: Claims)

  /** `claimsMiddleware`. `parse` is the JWT parser's answer for a token. */
  function ClaimsMiddleware(authorization: string, parse: string -> Result<Claims, Error>): (r: Outcome<Credentials>)
    ensures r == Next(Anonymous) <==> BearerToken(authorization).None?
    ensures r.Next? && r.context.Bearer? ==>
      BearerToken(authorization) == Some(r.context.token) && parse(r.context.token) == Ok(r.context.claims)
    ensures r.Respond? ==>
      BearerToken(authorization).Some? && parse(BearerToken(authorization).value).Err?
      && r.reply == Reply(401, Problem(Message(parse(BearerToken(authorization).value).error)))
  {
    var token := BearerToken(authorization);
    if token.None? then Next(Anonymous)
    else match parse(token.value)
      case Err(e) => Respond(ErrResponse(e, 401))
      case Ok(c) => Next(Bearer(token.value, c))
  }

  // ---------------------------------------------------------------------------
  // authMiddleware

  /** The user a request is about: the `username` path variable, or the caller. */
  function Username(vars: map<string, string>): string {
    if "username" in vars then vars["username"] else "self"
  }

  /** `authMiddleware.Middleware`. `validate` and `getUser` are IAM's answers, for
      the request's token, to `ValidateToken` and to `GetUser` of a name. */
  function AuthMiddleware(creds: Credentials, needAdmin: bool, vars: map<string, string>,
                          validate: string -> Option<Error>, getUser: string -> Result<W.User, Error>): (r: Outcome<W.User>)
    ensures creds.Anonymous? ==> r == Respond(Reply(401, Problem(Text(TokenRequired))))
    ensures creds.Bearer? && validate(creds.token).Some? ==>
      r == Respond(Reply(403, Problem(Message(validate(creds.token).value))))
    ensures creds.Bearer? && validate(creds.token).None? && needAdmin && !creds.claims.isAdmin ==>
      r == Respond(Reply(401, Problem(Text(AdminRequired))))
    ensures r.Next? <==>
      creds.Bearer? && validate(creds.token).None? && (needAdmin ==> creds.claims.isAdmin) && getUser(Username(vars)).Ok?
    ensures r.Next? ==> getUser(Username(vars)) == Ok(r.context)
  {
    match creds
    case Anonymous => Respond(ErrResponse(Root(TokenRequired), 0))
    case Bearer(token, claims) =>
      if validate(token).Some? then Respond(ErrResponse(validate(token).value, 403))
      else if needAdmin && !claims.isAdmin then Respond(ErrResponse(Root(AdminRequired), 0))
      else match getUser(Username(vars))
        case Err(e) => Respond(ErrResponse(e, 0))
        case Ok(u) => Next(u)
  }

  /** A request refused for its token or its admin claim is refused before IAM is
      asked for any user: the answer does not depend on the user lookup. */
  lemma AuthRefusesBeforeLookup(creds: Credentials, needAdmin: bool, vars: map<string, string>,
                                validate: string -> Option<Error>,
                                g1: string -> Result<W.User, Error>, g2: string -> Result<W.User, Error>)
    requires !(creds.Bearer? && validate(creds.token).None? && (needAdmin ==> creds.claims.isAdmin))
    ensures AuthMiddleware(creds, needAdmin, vars, validate, g1) == AuthMiddleware(creds, needAdmin, vars, validate, g2)
  {
  }

  /** Only the user the path names ("self" without one) is looked up. */
  lemma AuthLooksUpOneUser(creds: Credentials, needAdmin: bool, vars: map<string, string>,
                           validate: string -> Option<Error>,
                           g1: string -> Result<W.User, Error>, g2: string -> Result<W.User, Error>)
    requires g1(Username(vars)) == g2(Username(vars))
    ensures AuthMiddleware(creds, needAdmin, vars, validate, g1) == AuthMiddleware(creds, needAdmin, vars, validate, g2)
    ensures "username" !in vars ==> Username(vars) == "self"
  {
  }

  /** The two middlewares in sequence: a request without a bearer header is
      answered 401 "token required" and IAM is never asked. */
  lemma NoBearerNeedsToken(authorization: string, parse: string -> Result<Claims, Error>, needAdmin: bool,
                           vars: map<string, string>, validate: string -> Option<Error>,
                           getUser: string -> Result<W.User, Error>)
    requires BearerToken(authorization).None?
    ensures ClaimsMiddleware(authorization, parse) == Next(Anonymous)
    ensures AuthMiddleware(Anonymous, needAdmin, vars, validate, getUser)
            == Respond(Reply(401, Problem("token required for this endpoint")))
  {
  }

  // ---------------------------------------------------------------------------
  // getWebspaceMiddleware

  /** `getWebspaceMiddleware`: the resolved user is both the id and the hint of
      `Get`. `lxd` is LXD's answer to fetching an instance by name. */
  function GetWebspaceMiddleware(prefix: string, user: W.User, lxd: string -> Result<M.InstanceConfig, Error>)
    : (r: Outcome<W.Record>)
    ensures r.Next? <==>
      lxd(M.InstanceName(prefix, user.id)).Ok? && M.InstanceToWebspace(lxd(M.InstanceName(prefix, user.id)).value).Ok?
    ensures r.Next? ==> Ok(r.context) == M.InstanceToWebspace(lxd(M.InstanceName(prefix, user.id)).value)
    ensures r.Respond? ==> r.reply.Reply? && r.reply.status >= 400
  {
    var got := M.Get(user.id, Some(user), lxd(M.InstanceName(prefix, user.id)));
    if got.Err? then Respond(ErrResponse(got.error, 0)) else Next(got.value)
  }

  /** Since the hint is the user itself, the id check of `Get` never fires here:
      the answer is the one `Get` gives without a hint. */
  lemma GetWebspaceHintHarmless(prefix: string, user: W.User, lxd: string -> Result<M.InstanceConfig, Error>)
    ensures M.Get(user.id, Some(user), lxd(M.InstanceName(prefix, user.id)))
            == M.Get(user.id, None, lxd(M.InstanceName(prefix, user.id)))
  {
  }

  /** An instance LXD does not know is a 404. */
  lemma GetWebspaceMissing(prefix: string, user: W.User, lxd: string -> Result<M.InstanceConfig, Error>)
    requires lxd(M.InstanceName(prefix, user.id)).Err?
    requires Message(lxd(M.InstanceName(prefix, user.id)).error) == "not found"
    ensures GetWebspaceMiddleware(prefix, user, lxd) == Respond(Reply(404, Problem("failed to get LXD instance: not found")))
  {
    var e := lxd(M.InstanceName(prefix, user.id)).error;
    ConvertLXDErrorTable(e);
    var wrapped := Wrap("failed to get LXD instance: ", Root(GenericNotFound));
    assert M.Get(user.id, Some(user), lxd(M.InstanceName(prefix, user.id))) == Err(wrapped);
    ErrToStatusByRoot(wrapped);
    MissingMessage();
  }

  /** The message of that 404. */
  lemma MissingMessage()
    ensures Message(Wrap("failed to get LXD instance: ", Root(GenericNotFound))) == "failed to get LXD instance: not found"
  {
    assert Message(Root(GenericNotFound)) == "not found";
  }
}
