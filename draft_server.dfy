/** The HTTP server of the older generation (webspaced/internal/server): requests
    arrive over a Unix socket, the caller is the Unix user behind the peer
    credentials, and handlers pass statuses to `JSONErrResponse` themselves,
    choosing them with `wsErrorToStatus` over the webspace package's own sentinels. */
module DraftServer {
  import opened Util
  import opened Errors
  import opened Http
  import D = DraftWebspace
  import DM = DraftManager
  import Lookups
  import PortAllocation

  /** A middleware's decision: call the next handler with this context, or answer. */
  datatype Outcome<C> = Next(context: C) | Respond(reply: Reply<()>)

  // ---------------------------------------------------------------------------
  // Statuses

  /** `wsErrorToStatus`: the first matching group wins. */
  function WsErrorToStatus(e: Error): (status: int)
    ensures status in {400, 404, 409, 500}
  {
    if Is(e, WsNotFound) || Is(e, WsNotRunning) then 404
    else if Is(e, WsExists) || Is(e, WsRunning) || Is(e, WsUsed) then 409
    else if Is(e, WsDomainUnverified) || Is(e, WsBadPort) || Is(e, WsTooManyPorts) || Is(e, WsDefaultDomain) then 400
    else 500
  }

  /** The table `wsErrorToStatus` applies to the root sentinel of a chain. */
  function WsSentinelStatus(s: Sentinel): int {
    match s
    case WsNotFound | WsNotRunning => 404
    case WsExists | WsRunning | WsUsed => 409
    case WsDomainUnverified | WsBadPort | WsTooManyPorts | WsDefaultDomain => 400
    case _ => 500
  }

  /** Wrapping never changes the status, and any error from outside the webspace
      package (the current generation's sentinels included) is a server error. */
  lemma {:induction false} WsErrorToStatusByRoot(e: Error)
    ensures WsErrorToStatus(e) == (match RootOf(e) case Some(s) => WsSentinelStatus(s) case None => 500)
  {
    match e
    case Root(s) => WsRootStatus(s);
    case Foreign(_) =>
    case Wrapped(_, inner, _) => WsErrorToStatusByRoot(inner);
  }

  /** A bare sentinel answers its table entry. */
  lemma WsRootStatus(s: Sentinel)
    ensures WsErrorToStatus(Root(s)) == WsSentinelStatus(s)
  {
    if WsSentinelStatus(s) == 500 {
      assert !Is(Root(s), WsNotFound) && !Is(Root(s), WsNotRunning) && !Is(Root(s), WsExists)
        && !Is(Root(s), WsRunning) && !Is(Root(s), WsUsed) && !Is(Root(s), WsDomainUnverified)
        && !Is(Root(s), WsBadPort) && !Is(Root(s), WsTooManyPorts) && !Is(Root(s), WsDefaultDomain);
    }
  }

  /** The current sentinel each of the webspace package's sentinels became. */
  function Successor(s: Sentinel): Option<Sentinel> {
    match s
    case WsNotFound => Some(GenericNotFound)
    case WsExists => Some(Exists)
    case WsNotRunning => Some(NotRunning)
    case WsRunning => Some(Running)
    case WsDomainUnverified => Some(DomainUnverified)
    case WsUsed => Some(Used)
    case WsTooManyPorts => Some(TooManyPorts)
    case WsBadPort => Some(BadPort)
    case WsDefaultDomain => Some(DefaultDomain)
    case WsBadValue => Some(BadValue)
    case _ => None
  }

  /** The two generations give every webspace error the same status, except the
      bad-value error, which the older table leaves a server error. */
  lemma StatusGenerations(s: Sentinel)
    requires Successor(s).Some?
    ensures WsErrorToStatus(Root(s)) == ErrToStatus(Root(Successor(s).value)) <==> s != WsBadValue
    ensures s == WsBadValue ==> WsErrorToStatus(Root(s)) == 500 && ErrToStatus(Root(BadValue)) == 400
  {
    WsRootStatus(s);
    RootStatus(Successor(s).value);
    TablesAgree(s);
  }

  /** The two status tables, entry by entry. */
  lemma TablesAgree(s: Sentinel)
    requires Successor(s).Some?
    ensures WsSentinelStatus(s) == SentinelStatus(Successor(s).value) <==> s != WsBadValue
  {
  }

  /** The older `JSONErrResponse`: the status is written as given. */
  function DraftErrResponse<T>(err: Error, status: int): (r: Reply<T>)
    ensures r.Reply? && r.status == status && r.body == Problem(Message(err))
  {
    Reply(status, Problem(Message(err)))
  }

  /** With an explicit status the two generations' error replies coincide. */
  lemma ErrResponseGenerations<T>(err: Error, status: int)
    requires status != 0
    ensures DraftErrResponse<T>(err, status) == ErrResponse<T>(err, status)
  {
  }

  /** `apiNotFound`: a fresh error with the text of the current `ErrNotFound`. */
  function ApiNotFound(): (r: Reply<()>)
    ensures r == Reply(404, Problem(Text(NotFound)))
  {
    DraftErrResponse(Foreign("API endpoint not found"), 404)
  }

  /** The unknown-route reply is the one the current generation derives for its
      own not-found sentinel. */
  lemma ApiNotFoundGenerations()
    ensures ApiNotFound() == ErrResponse(Root(NotFound), 0)
  {
  }

  // ---------------------------------------------------------------------------
  // Middlewares

  /** `getWebspaceMiddleware`: the webspace of the user the request is for.
      `lxd` is LXD's answer to fetching an instance by name. */
  function GetWebspaceMiddleware(suffix: string, user: string, lxd: string -> Result<DM.InstanceConfig, Error>)
    : (r: Outcome<D.Record>)
    ensures r.Next? <==> DM.Get(lxd(DM.InstanceName(user, suffix))).Ok?
    ensures r.Next? ==> Ok(r.context) == DM.Get(lxd(DM.InstanceName(user, suffix)))
    ensures r.Respond? ==> r.reply.Reply? && r.reply.status in {400, 404, 409, 500}
  {
    var got := DM.Get(lxd(DM.InstanceName(user, suffix)));
    if got.Err? then Respond(DraftErrResponse(got.error, WsErrorToStatus(got.error))) else Next(got.value)
  }

  /** A user without an instance gets a 404. */
  lemma GetWebspaceMissing(suffix: string, user: string, lxd: string -> Result<DM.InstanceConfig, Error>)
    requires lxd(DM.InstanceName(user, suffix)).Err?
    requires Message(lxd(DM.InstanceName(user, suffix)).error) == "not found"
    ensures GetWebspaceMiddleware(suffix, user, lxd) == Respond(Reply(404, Problem("failed to get LXD instance: not found")))
  {
    ConvertLXDErrorDraftTable(lxd(DM.InstanceName(user, suffix)).error);
    assert ConvertLXDErrorDraft(lxd(DM.InstanceName(user, suffix)).error) == Root(WsNotFound);
  }

  /** A record that does not decode, or has a negative delay, is a server error:
      the older table has no entry for the bad-value error. */
  lemma GetWebspaceUndecodable(suffix: string, user: string, lxd: string -> Result<DM.InstanceConfig, Error>)
    requires lxd(DM.InstanceName(user, suffix)).Ok?
    requires DM.InstanceToWebspace(lxd(DM.InstanceName(user, suffix)).value).Err?
    ensures GetWebspaceMiddleware(suffix, user, lxd).Respond?
    ensures GetWebspaceMiddleware(suffix, user, lxd).reply.status == 500
  {
    var w := DM.InstanceToWebspace(lxd(DM.InstanceName(user, suffix)).value);
    assert DM.Get(lxd(DM.InstanceName(user, suffix))) == w;
    DM.InstanceToWebspaceRoot(lxd(DM.InstanceName(user, suffix)).value);
    WsErrorToStatusByRoot(w.error);
    assert WsErrorToStatus(w.error) == 500;
  }

  /** The user a request acts as: an administrator, or root, may act as the user
      the `X-Webspace-User` header names; everyone else is `own`. */
  function EffectiveUser(own: string, uid: nat, isMember: string -> Result<bool, Error>, header: string): string {
    if (isMember(own) == Ok(true) || uid == 0) && header != "" then header else own
  }

  /** `UserMiddleware`: the Unix user behind the socket's peer credentials, by
      name. `lookup` is the passwd proxy's answer for the uid and `isMember` its
      answer to a membership query in the admin group (an error counts as "no").
      An administrator, or root, may act as the user the `X-Webspace-User` header
      names. */
  method UserMiddleware(uid: nat, lookup: Result<string, Error>, isMember: string -> Result<bool, Error>,
                        header: string) returns (username: string)
    ensures username == EffectiveUser(if lookup.Ok? then lookup.value else "u" + DecimalString(uid), uid, isMember, header)
    ensures lookup.Err? && uid != 0 && isMember("u" + DecimalString(uid)) != Ok(true) ==> username == "u" + DecimalString(uid)
  {
    if lookup.Ok? {
      username := lookup.value;
    } else {
      username := "u" + DecimalString(uid);
    }
    var isAdmin := isMember(username) == Ok(true);
    if isAdmin || uid == 0 {
      if header != "" {
        username := header;
      }
    }
  }

  /** A request acts as someone else exactly when an administrator, or root,
      names another user in the header: whoever is neither is always themselves. */
  lemma OnlyAdminsImpersonate(uid: nat, name: string, isMember: string -> Result<bool, Error>, header: string)
    ensures EffectiveUser(name, uid, isMember, header) != name
            <==> (isMember(name) == Ok(true) || uid == 0) && header != "" && header != name
  {
  }

  /** The fallback name of an unknown uid is "u" and its digits, and different uids
      never share one. */
  lemma FallbackNames(a: nat, b: nat)
    requires "u" + DecimalString(a) == "u" + DecimalString(b)
    ensures a == b
  {
    assert DecimalString(a) == ("u" + DecimalString(a))[1..];
    assert DecimalString(b) == ("u" + DecimalString(b))[1..];
    DecimalInjective(a, b);
  }

  // ---------------------------------------------------------------------------
  // Port forwards

  /** The older `apiWebspacePorts`: the same parameter rules as the current one, the
      package's own bad-port error, and statuses from `wsErrorToStatus`. */
  method ApiWebspacePorts(ws: D.Webspace, verb: string, vars: map<string, string>, s: D.Settings,
                          all: Result<seq<D.Record>, Error>, draw: int, replies: D.SaveReplies)
    returns (reply: Reply<uint16>, ghost order: seq<uint16>)
    requires PortAllocation.ValidDraw(s.portsStart, s.portsEnd, D.UsedCount(all), draw)
    modifies ws
    ensures ParsePortRequest(verb, vars).None? ==>
      reply == Reply(400, Problem("invalid port")) && ws.Snapshot() == old(ws.Snapshot())
    ensures verb != "POST" && verb != "DELETE" ==> ws.Snapshot() == old(ws.Snapshot())
    ensures verb != "POST" && verb != "DELETE" && ParsePortRequest(verb, vars).Some? ==> reply == Reply(200, NoBody)
    ensures reply.Reply? && reply.status == 201 ==>
      verb == "POST" && ParsePortRequest(verb, vars).Some? &&
      var req := ParsePortRequest(verb, vars).value;
      if req.explicit then reply.body == NoBody && ws.ports == old(ws.ports)[req.external := req.internal]
      else reply.body.Json? && ws.ports == old(ws.ports)[reply.body.value := req.internal]
    ensures reply.Reply? && reply.status == 201 && reply.body.Json? && all.Ok?
      && D.UsedCount(all) <= s.portsEnd - s.portsStart && s.portsEnd - s.portsStart + 1 - D.UsedCount(all) < 65536
      ==> s.portsStart <= reply.body.value <= s.portsEnd
    ensures reply.Reply? && reply.status == 201 && reply.body.Json? ==>
      D.VisitOrder(order, all) && PortAllocation.AllocateAsWritten(s.portsStart, s.portsEnd, order, draw).Allocated?
      && reply.body.value == PortAllocation.AllocateAsWritten(s.portsStart, s.portsEnd, order, draw).port
    ensures reply.Reply? && reply.status == 201 && reply.body.Json? && all.Ok? && Sorted(order)
      && D.UsedCount(all) <= s.portsEnd - s.portsStart && s.portsEnd - s.portsStart + 1 - D.UsedCount(all) < 65536
      ==> !Lookups.Forwarded(D.PortMaps(all.value), reply.body.value)
    ensures reply.Reply? && reply.status == 204 ==>
      verb == "DELETE" && ParsePortRequest(verb, vars).Some?
      && ws.ports == old(ws.ports) - {ParsePortRequest(verb, vars).value.external}
    ensures verb == "DELETE" && ParsePortRequest(verb, vars).Some? && ParsePortRequest(verb, vars).value.external !in old(ws.ports)
      ==> reply == Reply(404, Problem("not found")) && ws.Snapshot() == old(ws.Snapshot())
    ensures reply.Dropped? ==> verb == "POST" && ws.Snapshot() == old(ws.Snapshot())
    ensures reply.Reply? && reply.status !in {200, 201, 204} ==> reply.body.Problem? && reply.status in {400, 404, 409, 500}
  {
    order := [];
    var req := ParsePortRequest(verb, vars);
    if req.None? {
      return DraftErrResponse(Root(WsBadPort), 400), [];
    }
    var r := req.value;
    if verb == "POST" {
      reply, order := PostPort(ws, r, s, all, draw, replies);
    } else if verb == "DELETE" {
      reply := DeletePort(ws, r.external, replies);
    } else {
      reply := Reply(200, NoBody);
    }
  }

  /** The `POST` branch of the older `apiWebspacePorts`: add the forward, answer
      201 with the chosen port for an implicit request, and map an error through
      `wsErrorToStatus`. */
  method PostPort(ws: D.Webspace, r: PortRequest, s: D.Settings, all: Result<seq<D.Record>, Error>, draw: int,
                  replies: D.SaveReplies) returns (reply: Reply<uint16>, ghost order: seq<uint16>)
    requires r.explicit <==> r.external != 0
    requires PortAllocation.ValidDraw(s.portsStart, s.portsEnd, D.UsedCount(all), draw)
    modifies ws
    ensures reply.Reply? && reply.status == 201 ==>
      if r.explicit then reply.body == NoBody && ws.ports == old(ws.ports)[r.external := r.internal]
      else reply.body.Json? && ws.ports == old(ws.ports)[reply.body.value := r.internal]
    ensures reply.Reply? && reply.status == 201 && reply.body.Json? && all.Ok?
      && D.UsedCount(all) <= s.portsEnd - s.portsStart && s.portsEnd - s.portsStart + 1 - D.UsedCount(all) < 65536
      ==> s.portsStart <= reply.body.value <= s.portsEnd
    ensures reply.Reply? && reply.status == 201 && reply.body.Json? ==>
      D.VisitOrder(order, all) && PortAllocation.AllocateAsWritten(s.portsStart, s.portsEnd, order, draw).Allocated?
      && reply.body.value == PortAllocation.AllocateAsWritten(s.portsStart, s.portsEnd, order, draw).port
    ensures reply.Reply? && reply.status == 201 && reply.body.Json? && all.Ok? && Sorted(order)
      && D.UsedCount(all) <= s.portsEnd - s.portsStart && s.portsEnd - s.portsStart + 1 - D.UsedCount(all) < 65536
      ==> !Lookups.Forwarded(D.PortMaps(all.value), reply.body.value)
    ensures reply.Dropped? ==> ws.Snapshot() == old(ws.Snapshot())
    ensures reply.Reply? && reply.status != 201 ==> reply.body.Problem? && reply.status in {400, 404, 409, 500}
  {
    var ext, err, panicked;
    ghost var chosen;
    ext, err, panicked, chosen, order := ws.AddPort(r.external, r.internal, s, all, draw, replies);
    if panicked {
      reply := Dropped;
    } else if err.Some? {
      reply := DraftErrResponse(err.value, WsErrorToStatus(err.value));
    } else if !r.explicit {
      reply := Reply(201, Json(ext));
    } else {
      reply := Reply(201, NoBody);
    }
  }

  /** The `DELETE` branch of the older `apiWebspacePorts`. */
  method DeletePort(ws: D.Webspace, external: uint16, replies: D.SaveReplies) returns (reply: Reply<uint16>)
    modifies ws
    ensures reply.Reply?
    ensures reply.status == 204 ==> ws.ports == old(ws.ports) - {external}
    ensures external !in old(ws.ports) ==> reply == Reply(404, Problem("not found")) && ws.Snapshot() == old(ws.Snapshot())
    ensures reply.status != 204 ==> reply.body.Problem? && reply.status in {400, 404, 409, 500}
  {
    var err := ws.RemovePort(external, replies);
    if err.Some? {
      return DraftErrResponse(err.value, WsErrorToStatus(err.value));
    }
    return Reply(204, NoBody);
  }
}
