/** The webspace endpoints of the current generation's HTTP server
    (internal/server/endpoints.go): each handler works on the webspace the
    middlewares fetched, calls into the webspace model and turns the outcome into a
    reply. LXD and IAM answers are parameters, as everywhere in this model. */
module Endpoints {
  import opened Util
  import opened Errors
  import opened Http
  import W = Webspace
  import M = Manager
  import Lookups
  import PortAllocation

  // ---------------------------------------------------------------------------
  // Port forwards

  /** `apiWebspacePorts`: parse the path, then add or remove the forward on the
      webspace. A request the parser refuses never reaches the webspace. */
  method ApiWebspacePorts(ws: W.Webspace, verb: string, vars: map<string, string>, s: W.Settings,
                          all: Result<seq<W.Record>, Error>, draw: int, replies: W.SaveReplies)
    returns (reply: Reply<uint16>, ghost order: seq<uint16>)
    requires PortAllocation.ValidDraw(s.portsStart, s.portsEnd, W.UsedCount(all), draw)
    modifies ws
    ensures ParsePortRequest(verb, vars).None? ==>
      reply == Reply(400, Problem("invalid port")) && ws.Snapshot() == old(ws.Snapshot())
    ensures verb != "POST" && verb != "DELETE" ==> ws.Snapshot() == old(ws.Snapshot())
    ensures verb != "POST" && verb != "DELETE" && ParsePortRequest(verb, vars).Some? ==> reply == Reply(200, NoBody)
    ensures reply.Reply? && reply.status == 201 ==>
      verb == "POST" && ParsePortRequest(verb, vars).Some? &&
      var req := ParsePortRequest(verb, vars).value;
      if req.explicit then reply.body == NoBody && ws.ports == old(ws.ports)[req.external := req.internal]
      else reply.body.Json? && ws.ports == old(ws.ports)[reply.body.value := req.internal]
    ensures reply.Reply? && reply.status == 201 && reply.body.Json? && all.Ok?
      && W.UsedCount(all) <= s.portsEnd - s.portsStart && s.portsEnd - s.portsStart + 1 - W.UsedCount(all) < 65536
      ==> s.portsStart <= reply.body.value <= s.portsEnd
    ensures reply.Reply? && reply.status == 201 && reply.body.Json? ==>
      W.VisitOrder(order, all) && PortAllocation.AllocateAsWritten(s.portsStart, s.portsEnd, order, draw).Allocated?
      && reply.body.value == PortAllocation.AllocateAsWritten(s.portsStart, s.portsEnd, order, draw).port
    ensures reply.Reply? && reply.status == 201 && reply.body.Json? && all.Ok? && Sorted(order)
      && W.UsedCount(all) <= s.portsEnd - s.portsStart && s.portsEnd - s.portsStart + 1 - W.UsedCount(all) < 65536
      ==> !Lookups.Forwarded(W.PortMaps(all.value), reply.body.value)
    ensures reply.Reply? && reply.status == 204 ==>
      verb == "DELETE" && ParsePortRequest(verb, vars).Some?
      && ws.ports == old(ws.ports) - {ParsePortRequest(verb, vars).value.external}
    ensures verb == "DELETE" && ParsePortRequest(verb, vars).Some? && ParsePortRequest(verb, vars).value.external !in old(ws.ports)
      ==> reply == Reply(404, Problem("not found")) && ws.Snapshot() == old(ws.Snapshot())
    ensures reply.Dropped? ==> verb == "POST" && ws.Snapshot() == old(ws.Snapshot())
    ensures reply.Reply? && reply.status !in {200, 201, 204} ==> reply.body.Problem? && reply.status >= 400
  {
    order := [];
    var req := ParsePortRequest(verb, vars);
    if req.None? {
      return ErrResponse(Root(BadPort), 400), [];
    }
    var r := req.value;
    if verb == "POST" {
      reply, order := PostPortReply(ws, r, s, all, draw, replies);
    } else if verb == "DELETE" {
      var err := ws.RemovePort(r.external, replies);
      reply := if err.Some? then ErrResponse(err.value, 0) else Reply(204, NoBody);
    } else {
      reply := Reply(200, NoBody);
    }
  }

  /** The POST branch of `apiWebspacePorts`: add the forward, answering 201 with
      the chosen port when the request left it to the allocator. */
  method PostPortReply(ws: W.Webspace, r: PortRequest, s: W.Settings, all: Result<seq<W.Record>, Error>, draw: int,
                       replies: W.SaveReplies)
    returns (reply: Reply<uint16>, ghost order: seq<uint16>)
    requires PortAllocation.ValidDraw(s.portsStart, s.portsEnd, W.UsedCount(all), draw)
    requires r.explicit <==> r.external != 0
    modifies ws
    ensures reply.Reply? && reply.status == 201 ==>
      if r.explicit then reply.body == NoBody && ws.ports == old(ws.ports)[r.external := r.internal]
      else reply.body.Json? && ws.ports == old(ws.ports)[reply.body.value := r.internal]
    ensures reply.Reply? && reply.status == 201 && reply.body.Json? && all.Ok?
      && W.UsedCount(all) <= s.portsEnd - s.portsStart && s.portsEnd - s.portsStart + 1 - W.UsedCount(all) < 65536
      ==> s.portsStart <= reply.body.value <= s.portsEnd
    ensures reply.Reply? && reply.status == 201 && reply.body.Json? ==>
      W.VisitOrder(order, all) && PortAllocation.AllocateAsWritten(s.portsStart, s.portsEnd, order, draw).Allocated?
      && reply.body.value == PortAllocation.AllocateAsWritten(s.portsStart, s.portsEnd, order, draw).port
    ensures reply.Reply? && reply.status == 201 && reply.body.Json? && all.Ok? && Sorted(order)
      && W.UsedCount(all) <= s.portsEnd - s.portsStart && s.portsEnd - s.portsStart + 1 - W.UsedCount(all) < 65536
      ==> !Lookups.Forwarded(W.PortMaps(all.value), reply.body.value)
    ensures reply.Reply? ==> reply.status == 201 || (reply.body.Problem? && reply.status >= 400)
    ensures reply.Dropped? ==> ws.Snapshot() == old(ws.Snapshot())
  {
    var ext, err, panicked;
    ghost var chosen;
    ext, err, panicked, chosen, order := ws.AddPort(r.external, r.internal, s, all, draw, replies);
    if panicked {
      reply := Dropped;
    } else if err.Some? {
      reply := ErrResponse(err.value, 0);
    } else if !r.explicit {
      reply := Reply(201, Json(ext));
    } else {
      reply := Reply(201, NoBody);
    }
  }

  // ---------------------------------------------------------------------------
  // Power state

  datatype StateAction = Boot | Sync | Reboot | Shutdown

  /** The switch of `apiSetWebspaceState`. */
  function StateActionOf(verb: string): (a: Option<StateAction>)
    ensures a.Some? <==> verb in {"POST", "PATCH", "PUT", "DELETE"}
  {
    match verb
    case "POST" => Some(Boot)
    case "PATCH" => Some(Sync)
    case "PUT" => Some(Reboot)
    case "DELETE" => Some(Shutdown)
    case _ => None
  }

  /** Each action has exactly one method. */
  lemma StateActionsDistinct(v1: string, v2: string)
    requires StateActionOf(v1).Some? && StateActionOf(v1) == StateActionOf(v2)
    ensures v1 == v2
  {
  }

  /** `apiSetWebspaceState`: perform the action the method names, if any, and
      answer 204 unless it failed. `perform` is the webspace's answer to each
      action (`None` is success). */
  function SetStateReply(verb: string, perform: StateAction -> Option<Error>): (r: Reply<()>)
    ensures r.Reply?
    ensures r.status == 204 <==> StateActionOf(verb).None? || perform(StateActionOf(verb).value).None?
    ensures r.status == 204 ==> r.body == NoBody
    ensures r.status != 204 ==> r.body == Problem(Message(perform(StateActionOf(verb).value).value))
  {
    var action := StateActionOf(verb);
    var err := if action.Some? then perform(action.value) else None;
    if err.Some? then ErrResponse(err.value, 0) else Reply(204, NoBody)
  }

  /** A failed action answers with the status of its error: shutting down a
      stopped instance is a 404, booting a running one a 409. */
  lemma SetStateErrorStatus(verb: string, perform: StateAction -> Option<Error>)
    requires StateActionOf(verb).Some? && perform(StateActionOf(verb).value).Some?
    ensures SetStateReply(verb, perform).status == ErrToStatus(perform(StateActionOf(verb).value).value)
    ensures perform(StateActionOf(verb).value) == Some(Root(NotRunning)) ==> SetStateReply(verb, perform).status == 404
    ensures perform(StateActionOf(verb).value) == Some(Root(Running)) ==> SetStateReply(verb, perform).status == 409
  {
  }

  // ---------------------------------------------------------------------------
  // Configuration

  /** `apiUpdateWebspaceConfig`: decode the body over the configuration, save,
      and answer with the configuration as it was before. `decoded` is the
      configuration the JSON decoder leaves in `ws.Config`, or its complaint. */
  method ApiUpdateWebspaceConfig(ws: W.Webspace, decoded: Result<W.WebspaceConfig, Error>, replies: W.SaveReplies)
    returns (reply: Reply<W.WebspaceConfig>)
    modifies ws
    ensures decoded.Err? ==> reply == BodyError(decoded.error) && ws.Snapshot() == old(ws.Snapshot())
    ensures decoded.Ok? ==> ws.Snapshot() == old(ws.Snapshot()).(config := decoded.value)
    ensures decoded.Ok? && W.SaveResult(ws.Snapshot(), replies).None? ==> reply == Reply(200, Json(old(ws.config)))
    ensures decoded.Ok? && W.SaveResult(ws.Snapshot(), replies).Some? ==>
      reply == ErrResponse(W.SaveResult(ws.Snapshot(), replies).value, 0)
    ensures decoded.Ok? && decoded.value.startupDelay < 0.0 && replies.getInstance.None? ==>
      reply == Reply(400, Problem("invalid value for configuration option"))
  {
    var oldConf := ws.config;
    if decoded.Err? {
      return BodyError(decoded.error);
    }
    ws.config := decoded.value;
    var err := W.SaveResult(ws.Snapshot(), replies);
    if err.Some? {
      return ErrResponse(err.value, 0);
    }
    return Reply(200, Json(oldConf));
  }

  // ---------------------------------------------------------------------------
  // Creation

  /** The body of a create request. */
  datatype CreateRequest = CreateRequest(image: string, password: string, ssh: bool)

  /** `apiCreateWebspace`: an SSH request needs the user's SSH key from IAM; then
      the webspace is created for the user's id. The 201 body carries no content
      in this model. */
  method ApiCreateWebspace(s: W.Settings, user: W.User, body: Result<CreateRequest, Error>, isFingerprint: bool,
                           replies: M.CreateReplies) returns (reply: Reply<()>, steps: seq<M.CreateStep<W.Record>>)
    ensures body.Err? ==> reply == BodyError(body.error) && steps == []
    ensures body.Ok? && body.value.ssh && user.sshKey.None? ==>
      reply == Reply(500, Problem(Text(SSHKey))) && steps == []
    ensures body.Ok? && !body.value.ssh ==> M.AddSshForward !in steps
    ensures M.AddSshForward in steps ==>
      body.Ok? && body.value.ssh && user.sshKey.Some? && M.Exec(M.StoreKeyCommand(user.sshKey.value)) in steps
    ensures reply.Reply? && reply.status == 201 ==>
      body.Ok? && (body.value.ssh ==> user.sshKey.Some?) && steps != []
      && steps[0].CreateInstance? && steps[0].name == M.InstanceName(s.instancePrefix, user.id)
      && steps[0].record == M.NewRecord(user.id, s)
    ensures reply.Reply? && reply.status != 201 ==> reply.body.Problem? && reply.status >= 400
  {
    steps := [];
    if body.Err? {
      return BodyError(body.error), steps;
    }
    var sshKey := "";
    if body.value.ssh {
      if user.sshKey.None? {
        return ErrResponse(Root(SSHKey), 0), steps;
      }
      sshKey := user.sshKey.value;
    }
    var err;
    err, steps := M.Create(s, user.id, body.value.image, isFingerprint, body.value.password, sshKey, replies);
    if err.Some? {
      return ErrResponse(err.value, 0), steps;
    }
    return Reply(201, Json(())), steps;
  }
}
