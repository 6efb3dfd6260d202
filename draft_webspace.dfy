/** A webspace of the older generation (webspaced/internal/webspace/webspace.go):
    keyed by Unix user name, with the package's own error sentinels, no protection of
    a default domain and no startup-delay check on save. */
module DraftWebspace {
  import opened Util
  import opened Errors
  import Lookups
  import PortAllocation

  datatype WebspaceConfig = WebspaceConfig(startupDelay: real, httpPort: uint16, httpsPort: uint16)

  datatype Record = Record(user: string, config: WebspaceConfig, domains: seq<string>, ports: map<uint16, uint16>)

  datatype Settings = Settings(domain: string, portsStart: uint16, portsEnd: uint16, portsMax: uint16,
                               configDefaults: WebspaceConfig)

  /** Replies to the steps of the older `Save`: instance-name template, fetch,
      update, wait (`None` is success). */
  datatype SaveReplies = SaveReplies(name: Option<Error>, getInstance: Option<Error>,
                                     update: Option<Error>, wait: Option<Error>)

  /** The older `Save`: serialising never fails here, whatever the startup delay. */
  function SaveResult(replies: SaveReplies): (err: Option<Error>)
    ensures err.None? <==> replies.name.None? && replies.getInstance.None? && replies.update.None? && replies.wait.None?
    ensures replies.name.Some? ==> err == replies.name
  {
    if replies.name.Some? then replies.name
    else if replies.getInstance.Some? then
      Some(Wrap("failed to get instance from LXD: ", ConvertLXDErrorDraft(replies.getInstance.value)))
    else if replies.update.Some? then
      Some(Wrap("failed to update LXD instance: ", ConvertLXDErrorDraft(replies.update.value)))
    else if replies.wait.Some? then
      Some(Wrap("failed to update LXD instance: ", ConvertLXDErrorDraft(replies.wait.value)))
    else None
  }

  /** The TXT record that proves ownership of a domain. */
  function VerificationRecord(user: string): string {
    "webspace:" + user
  }

  function DomainLists(all: seq<Record>): (lists: seq<seq<string>>)
    ensures |lists| == |all| && forall i :: 0 <= i < |all| ==> lists[i] == all[i].domains
  {
    seq(|all|, i requires 0 <= i < |all| => all[i].domains)
  }

  function PortMaps(all: seq<Record>): (maps: seq<map<uint16, uint16>>)
    ensures |maps| == |all| && forall i :: 0 <= i < |all| ==> maps[i] == all[i].ports
  {
    seq(|all|, i requires 0 <= i < |all| => all[i].ports)
  }

  function UsedCount(all: Result<seq<Record>, Error>): nat {
    if all.Ok? then Lookups.PortCount(PortMaps(all.value)) else 0
  }

  function AddPortRejection(current: nat, external: uint16, internal: uint16, s: Settings,
                            all: Result<seq<Record>, Error>): Option<Error>
  {
    if current == s.portsMax then Some(Root(WsTooManyPorts))
    else if internal == 0 then Some(Wrapped("", Root(WsBadPort), " (internal port cannot be 0)"))
    else if external != 0 && (external < s.portsStart || external > s.portsEnd) then
      Some(Wrapped("", Root(WsBadPort), " (external port out of range "
        + DecimalString(s.portsStart) + "-" + DecimalString(s.portsEnd) + ")"))
    else if all.Err? then Some(all.error)
    else if Lookups.Forwarded(PortMaps(all.value), external) then Some(Root(WsUsed))
    else None
  }

  /** An order in which the scan of `AddPort` can meet the used ports: the
      webspaces in the order they were listed, each one's ports together in Go
      map order, so each external port as often as webspaces forward it. */
  ghost predicate VisitOrder(order: seq<uint16>, all: Result<seq<Record>, Error>) {
    all.Ok? && Lookups.ScanOrder(order, PortMaps(all.value)) && multiset(order) == Lookups.PortMultiset(PortMaps(all.value))
    && |order| == UsedCount(all) && forall p :: p in order <==> Lookups.Forwarded(PortMaps(all.value), p)
  }

  /** The checks of `AddPort`, in order, and the scan over every webspace's ports
      that finds a clash and collects the used ports for an implicit draw. */
  method CheckAddPort(current: nat, external: uint16, internal: uint16, s: Settings,
                      all: Result<seq<Record>, Error>) returns (rejected: Option<Error>, allPorts: seq<uint16>)
    ensures rejected == AddPortRejection(current, external, internal, s, all)
    ensures rejected.None? && external == 0 ==> VisitOrder(allPorts, all)
  {
    allPorts := [];
    if current == s.portsMax {
      return Some(Root(WsTooManyPorts)), allPorts;
    }
    if internal == 0 {
      return Some(Wrapped("", Root(WsBadPort), " (internal port cannot be 0)")), allPorts;
    }
    if external != 0 && (external < s.portsStart || external > s.portsEnd) {
      return Some(Wrapped("", Root(WsBadPort), " (external port out of range "
        + DecimalString(s.portsStart) + "-" + DecimalString(s.portsEnd) + ")")), allPorts;
    }
    if all.Err? {
      return Some(all.error), allPorts;
    }
    var clash;
    clash, allPorts := Lookups.ScanPorts(PortMaps(all.value), external);
    if clash {
      return Some(Root(WsUsed)), allPorts;
    }
    return None, allPorts;
  }


  /** The record the older `Create` in webspace.go stores: defaults, no domains, no
      ports. */
  function NewRecord(user: string, s: Settings): (r: Record)
    ensures r.user == user && r.config == s.configDefaults
    ensures r.domains == [] && r.ports == map[]
  {
    Record(user, s.configDefaults, [], map[])
  }

  class Webspace {
    var user: string
    var config: WebspaceConfig
    var domains: seq<string>
    var ports: map<uint16, uint16>

    function Snapshot(): Record
      reads this
    {
      Record(user, config, domains, ports)
    }

    constructor (r: Record)
      ensures Snapshot() == r
    {
      user := r.user;
      config := r.config;
      domains := r.domains;
      ports := r.ports;
    }

    method AddDomain(domain: string, txt: Result<seq<string>, Error>, all: Result<seq<Record>, Error>,
                     replies: SaveReplies) returns (err: Option<Error>)
      modifies this
      ensures txt.Err? ==> err == Some(Wrap("failed to lookup TXT records: ", txt.error))
      ensures txt.Ok? && VerificationRecord(old(user)) !in txt.value ==> err == Some(Root(WsDomainUnverified))
      ensures txt.Ok? && VerificationRecord(old(user)) in txt.value && all.Err? ==> err == Some(all.error)
      ensures (txt.Ok? && VerificationRecord(old(user)) in txt.value && all.Ok?
               && Lookups.Listed(DomainLists(all.value), domain)) ==> err == Some(Root(WsUsed))
      ensures if txt.Ok? && VerificationRecord(old(user)) in txt.value && all.Ok?
                 && !Lookups.Listed(DomainLists(all.value), domain)
              then Snapshot() == old(Snapshot()).(domains := old(domains) + [domain])
                   && err == SaveResult(replies)
              else Snapshot() == old(Snapshot())
    {
      if txt.Err? {
        return Some(Wrap("failed to lookup TXT records: ", txt.error));
      }
      var verified := Lookups.AnyEquals(txt.value, VerificationRecord(user));
      if !verified {
        return Some(Root(WsDomainUnverified));
      }
      if all.Err? {
        return Some(all.error);
      }
      var used := Lookups.DomainListed(DomainLists(all.value), domain);
      if used {
        return Some(Root(WsUsed));
      }
      domains := domains + [domain];
      err := SaveResult(replies);
    }

    /** The older `RemoveDomain`: any listed domain can go, the default one included. */
    method RemoveDomain(domain: string, replies: SaveReplies) returns (err: Option<Error>)
      modifies this
      ensures domain !in old(domains) ==> err == Some(Root(WsNotFound)) && Snapshot() == old(Snapshot())
      ensures domain in old(domains) ==>
        domains == SwapRemove(old(domains), FirstIndex(old(domains), domain))
        && multiset(domains) == multiset(old(domains)) - multiset{domain}
        && Snapshot() == old(Snapshot()).(domains := domains)
        && err == SaveResult(replies)
    {
      for i := 0 to |domains|
        invariant forall k :: 0 <= k < i ==> domains[k] != domain
      {
        if domains[i] == domain {
          assert i == FirstIndex(domains, domain);
          SwapRemoveContents(domains, i);
          var e := |domains| - 1;
          domains := domains[i := domains[e]][..e];
          err := SaveResult(replies);
          return;
        }
      }
      return Some(Root(WsNotFound));
    }

    method AddPort(external: uint16, internal: uint16, s: Settings, all: Result<seq<Record>, Error>,
                   draw: int, replies: SaveReplies) returns (ext: uint16, err: Option<Error>, panicked: bool,
                                                      ghost chosen: uint16, ghost order: seq<uint16>)
      requires PortAllocation.ValidDraw(s.portsStart, s.portsEnd, UsedCount(all), draw)
      modifies this
      ensures AddPortRejection(|old(ports)|, external, internal, s, all).Some? ==>
        !panicked && err == AddPortRejection(|old(ports)|, external, internal, s, all) && ext == 0
        && Snapshot() == old(Snapshot())
      ensures AddPortRejection(|old(ports)|, external, internal, s, all).None? && external != 0 ==>
        !panicked && Snapshot() == old(Snapshot()).(ports := old(ports)[external := internal])
        && err == SaveResult(replies) && ext == (if err.None? then external else 0)
      ensures AddPortRejection(|old(ports)|, external, internal, s, all).None? && external == 0 ==>
        (panicked && Snapshot() == old(Snapshot()))
        || (!panicked && Snapshot() == old(Snapshot()).(ports := old(ports)[chosen := internal])
              && err == SaveResult(replies) && ext == (if err.None? then chosen else 0))
      ensures AddPortRejection(|old(ports)|, external, internal, s, all).None? && external == 0
        && UsedCount(all) <= s.portsEnd - s.portsStart && s.portsEnd - s.portsStart + 1 - UsedCount(all) < 65536
        ==> !panicked
      ensures AddPortRejection(|old(ports)|, external, internal, s, all).None? && external == 0 && err.None?
        && UsedCount(all) <= s.portsEnd - s.portsStart && s.portsEnd - s.portsStart + 1 - UsedCount(all) < 65536
        ==> s.portsStart <= ext <= s.portsEnd
      ensures AddPortRejection(|old(ports)|, external, internal, s, all).None? && external == 0 ==>
        VisitOrder(order, all)
        && (panicked <==> PortAllocation.AllocateAsWritten(s.portsStart, s.portsEnd, order, draw).DrawPanic?)
        && (!panicked ==> chosen == PortAllocation.AllocateAsWritten(s.portsStart, s.portsEnd, order, draw).port)
      ensures AddPortRejection(|old(ports)|, external, internal, s, all).None? && external == 0 && err.None?
        && UsedCount(all) <= s.portsEnd - s.portsStart && s.portsEnd - s.portsStart + 1 - UsedCount(all) < 65536
        && Sorted(order)
        ==> !Lookups.Forwarded(PortMaps(all.value), ext)
    {
      var rejected, allPorts := CheckAddPort(|ports|, external, internal, s, all);
      if rejected.Some? {
        return 0, rejected, false, 0, [];
      }
      order := allPorts;
      var port := external;
      if external == 0 {
        var panic;
        port, panic := PortAllocation.DrawPort(s.portsStart, s.portsEnd, allPorts, draw);
        if panic {
          return 0, None, true, 0, order;
        }
      }
      ports := ports[port := internal];
      err := SaveResult(replies);
      ext := if err.None? then port else 0;
      panicked := false;
      chosen := port;
    }

    method RemovePort(external: uint16, replies: SaveReplies) returns (err: Option<Error>)
      modifies this
      ensures external !in old(ports) ==> err == Some(Root(WsNotFound)) && Snapshot() == old(Snapshot())
      ensures external in old(ports) ==>
        Snapshot() == old(Snapshot()).(ports := old(ports) - {external}) && err == SaveResult(replies)
    {
      if external !in ports {
        return Some(Root(WsNotFound));
      }
      ports := ports - {external};
      err := SaveResult(replies);
    }
  }
}
