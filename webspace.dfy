/** A webspace of the current generation (internal/webspace/webspace.go): the record
    stored in its LXD instance's configuration, keyed by the IAM user id, and the
    operations that change its domain list and its port-forward map in place. LXD,
    DNS, IAM and the random source are replies handed to each operation. */
module Webspace {
  import opened Util
  import opened Errors
  import Lookups
  import PortAllocation

  /** `config.WebspaceConfig`; only the sign of the float StartupDelay matters here. */
  datatype WebspaceConfig = WebspaceConfig(startupDelay: real, httpPort: uint16, sniPassthrough: bool)

  /** The JSON-serialised part of a webspace. */
  datatype Record = Record(userID: int, config: WebspaceConfig, domains: seq<string>, ports: map<uint16, uint16>)

  /** The IAM user a webspace belongs to. */
  datatype User = User(id: int, username: string, isAdmin: bool, sshKey: Option<string>)

  /** The parts of the daemon configuration the webspace operations read. */
  datatype Settings = Settings(
    instancePrefix: string, domain: string,
    portsStart: uint16, portsEnd: uint16, portsMax: uint16,
    configDefaults: WebspaceConfig)

  /** What LXD answers to the three calls `Save` makes: fetch the instance, update
      it, wait for the update operation (`None` is success). */
  datatype SaveReplies = SaveReplies(getInstance: Option<Error>, update: Option<Error>, wait: Option<Error>)

  /** `lxdConfig`: a negative startup delay is refused before serialising. */
  function LxdConfig(r: Record): (c: Result<Record, Error>)
    ensures c.Ok? <==> r.config.startupDelay >= 0.0
    ensures c.Err? ==> ErrToStatus(c.error) == 400
  {
    if r.config.startupDelay < 0.0 then Err(Root(BadValue)) else Ok(r)
  }

  /** `Save`: fetch the instance, serialise the record, write it back. */
  function SaveResult(r: Record, replies: SaveReplies): (err: Option<Error>)
    ensures err.None? <==> replies.getInstance.None? && r.config.startupDelay >= 0.0
                           && replies.update.None? && replies.wait.None?
    ensures replies.getInstance.None? && r.config.startupDelay < 0.0 ==> err == Some(Root(BadValue))
  {
    if replies.getInstance.Some? then
      Some(Wrap("failed to get instance from LXD: ", ConvertLXDError(replies.getInstance.value)))
    else if LxdConfig(r).Err? then Some(LxdConfig(r).error)
    else if replies.update.Some? then
      Some(Wrap("failed to update LXD instance: ", ConvertLXDError(replies.update.value)))
    else if replies.wait.Some? then
      Some(Wrap("failed to update LXD instance: ", ConvertLXDError(replies.wait.value)))
    else None
  }

  /** `<username>.<Webspaces.Domain>`, or the IAM failure. */
  function DefaultDomainOf(user: Result<User, Error>, s: Settings): (d: Result<string, Error>)
    ensures user.Ok? <==> d.Ok?
    ensures d.Ok? ==> d.value == user.value.username + "." + s.domain
    ensures d.Err? ==> Message(d.error) == "failed to get user: " + Message(user.error)
  {
    if user.Err? then Err(Wrap("failed to get user: ", user.error))
    else Ok(user.value.username + "." + s.domain)
  }

  /** The record `TXT` lookup must return for `AddDomain` to accept a domain. */
  function VerificationRecord(userID: int): string {
    "webspace:id:" + IntString(userID)
  }

  function DomainLists(all: seq<Record>): (lists: seq<seq<string>>)
    ensures |lists| == |all| && forall i :: 0 <= i < |all| ==> lists[i] == all[i].domains
  {
    seq(|all|, i requires 0 <= i < |all| => all[i].domains)
  }

  function PortMaps(all: seq<Record>): (maps: seq<map<uint16, uint16>>)
    ensures |maps| == |all| && forall i :: 0 <= i < |all| ==> maps[i] == all[i].ports
  {
    seq(|all|, i requires 0 <= i < |all| => all[i].ports)
  }

  /** Ports of all webspaces together, as the random draw of an implicit `AddPort`
      sees them (0 when listing the webspaces fails: no draw is made then). */
  function UsedCount(all: Result<seq<Record>, Error>): nat {
    if all.Ok? then Lookups.PortCount(PortMaps(all.value)) else 0
  }

  /** The error an explicit or implicit `AddPort` stops at before touching the map. */
  function AddPortRejection(current: nat, external: uint16, internal: uint16, s: Settings,
                            all: Result<seq<Record>, Error>): Option<Error>
  {
    if current == s.portsMax then Some(Root(TooManyPorts))
    else if internal == 0 then Some(Wrapped("", Root(BadPort), " (internal port cannot be 0)"))
    else if external != 0 && (external < s.portsStart || external > s.portsEnd) then
      Some(Wrapped("", Root(BadPort), " (external port out of range "
        + DecimalString(s.portsStart) + "-" + DecimalString(s.portsEnd) + ")"))
    else if all.Err? then Some(all.error)
    else if Lookups.Forwarded(PortMaps(all.value), external) then Some(Root(Used))
    else None
  }

  /** An order in which the scan of `AddPort` can meet the used ports: the
      webspaces in the order they were listed, each one's ports together in Go
      map order, so each external port as often as webspaces forward it. */
  ghost predicate VisitOrder(order: seq<uint16>, all: Result<seq<Record>, Error>) {
    all.Ok? && Lookups.ScanOrder(order, PortMaps(all.value)) && multiset(order) == Lookups.PortMultiset(PortMaps(all.value))
    && |order| == UsedCount(all) && forall p :: p in order <==> Lookups.Forwarded(PortMaps(all.value), p)
  }

  /** Webspaces forwarding `1002` and then `1001`: the scan can meet them only in
      that order, so draw 1 in 1000-1010 is answered 1001, a port in use, and
      never 1003. */
  lemma VisitOrderReusesPort(a: Record, b: Record, order: seq<uint16>)
    requires a.ports == map[1002 := 80] && b.ports == map[1001 := 80]
    requires VisitOrder(order, Ok([a, b]))
    ensures order == [1002, 1001]
    ensures PortAllocation.AllocateAsWritten(1000, 1010, order, 1) == PortAllocation.Allocated(1001)
  {
    assert PortMaps([a, b]) == [map[1002 := 80], map[1001 := 80]];
    Lookups.ScanOrderGroups(order);
    PortAllocation.AllocateAsWrittenReusesPort();
  }

  /** The checks of `AddPort`, in order, and the scan over every webspace's ports
      that finds a clash and collects the used ports for an implicit draw. */
  method CheckAddPort(current: nat, external: uint16, internal: uint16, s: Settings,
                      all: Result<seq<Record>, Error>) returns (rejected: Option<Error>, allPorts: seq<uint16>)
    ensures rejected == AddPortRejection(current, external, internal, s, all)
    ensures rejected.None? && external == 0 ==> VisitOrder(allPorts, all)
  {
    allPorts := [];
    if current == s.portsMax {
      return Some(Root(TooManyPorts)), allPorts;
    }
    if internal == 0 {
      return Some(Wrapped("", Root(BadPort), " (internal port cannot be 0)")), allPorts;
    }
    if external != 0 && (external < s.portsStart || external > s.portsEnd) {
      return Some(Wrapped("", Root(BadPort), " (external port out of range "
        + DecimalString(s.portsStart) + "-" + DecimalString(s.portsEnd) + ")")), allPorts;
    }
    if all.Err? {
      return Some(all.error), allPorts;
    }
    var clash;
    clash, allPorts := Lookups.ScanPorts(PortMaps(all.value), external);
    if clash {
      return Some(Root(Used)), allPorts;
    }
    return None, allPorts;
  }

  class Webspace {
    var userID: int
    var config: WebspaceConfig
    var domains: seq<string>
    var ports: map<uint16, uint16>

    function Snapshot(): Record
      reads this
    {
      Record(userID, config, domains, ports)
    }

    constructor (r: Record)
      ensures Snapshot() == r
    {
      userID := r.userID;
      config := r.config;
      domains := r.domains;
      ports := r.ports;
    }

    /** `GetDomains`: a copy of the domain list with the default domain in front. */
    method GetDomains(user: Result<User, Error>, s: Settings) returns (r: Result<seq<string>, Error>)
      ensures user.Err? ==>
        r == Err(Wrap("failed to get default domain: ", Wrap("failed to get user: ", user.error)))
      ensures user.Ok? ==> r == Ok([user.value.username + "." + s.domain] + domains)
    {
      var copy := [];
      for i := 0 to |domains|
        invariant copy == domains[..i]
      {
        copy := copy + [domains[i]];
      }
      var d := DefaultDomainOf(user, s);
      if d.Err? {
        return Err(Wrap("failed to get default domain: ", d.error));
      }
      assert domains[..|domains|] == domains;
      return Ok([d.value] + copy);
    }

    /** `AddDomain`: the TXT check, then uniqueness across all webspaces, then append. */
    method AddDomain(domain: string, txt: Result<seq<string>, Error>, all: Result<seq<Record>, Error>,
                     replies: SaveReplies) returns (err: Option<Error>)
      modifies this
      ensures txt.Err? ==> err == Some(Wrap("failed to lookup TXT records: ", txt.error))
      ensures txt.Ok? && VerificationRecord(old(userID)) !in txt.value ==> err == Some(Root(DomainUnverified))
      ensures txt.Ok? && VerificationRecord(old(userID)) in txt.value && all.Err? ==> err == Some(all.error)
      ensures (txt.Ok? && VerificationRecord(old(userID)) in txt.value && all.Ok?
               && Lookups.Listed(DomainLists(all.value), domain)) ==> err == Some(Root(Used))
      ensures if txt.Ok? && VerificationRecord(old(userID)) in txt.value && all.Ok?
                 && !Lookups.Listed(DomainLists(all.value), domain)
              then Snapshot() == old(Snapshot()).(domains := old(domains) + [domain])
                   && err == SaveResult(Snapshot(), replies)
              else Snapshot() == old(Snapshot())
    {
      if txt.Err? {
        return Some(Wrap("failed to lookup TXT records: ", txt.error));
      }
      var verified := Lookups.AnyEquals(txt.value, VerificationRecord(userID));
      if !verified {
        return Some(Root(DomainUnverified));
      }
      if all.Err? {
        return Some(all.error);
      }
      var used := Lookups.DomainListed(DomainLists(all.value), domain);
      if used {
        return Some(Root(Used));
      }
      domains := domains + [domain];
      err := SaveResult(Snapshot(), replies);
    }

    /** `RemoveDomain`: the default domain is protected; otherwise the first match is
        overwritten by the last entry and the list shrinks by one. */
    method RemoveDomain(user: Result<User, Error>, domain: string, s: Settings, replies: SaveReplies)
      returns (err: Option<Error>)
      modifies this
      ensures user.Err? ==> err == Some(Wrap("failed to get user: ", user.error))
      ensures user.Ok? && domain == user.value.username + "." + s.domain ==> err == Some(Root(DefaultDomain))
      ensures user.Ok? && domain != user.value.username + "." + s.domain && domain !in old(domains)
        ==> err == Some(Root(GenericNotFound))
      ensures if user.Ok? && domain != user.value.username + "." + s.domain && domain in old(domains)
              then domains == SwapRemove(old(domains), FirstIndex(old(domains), domain))
                   && multiset(domains) == multiset(old(domains)) - multiset{domain}
                   && Snapshot() == old(Snapshot()).(domains := domains)
                   && err == SaveResult(Snapshot(), replies)
              else Snapshot() == old(Snapshot())
    {
      if user.Err? {
        return Some(Wrap("failed to get user: ", user.error));
      }
      if domain == user.value.username + "." + s.domain {
        return Some(Root(DefaultDomain));
      }
      for i := 0 to |domains|
        invariant forall k :: 0 <= k < i ==> domains[k] != domain
      {
        if domains[i] == domain {
          assert i == FirstIndex(domains, domain);
          SwapRemoveContents(domains, i);
          var e := |domains| - 1;
          domains := domains[i := domains[e]][..e];
          err := SaveResult(Snapshot(), replies);
          return;
        }
      }
      return Some(Root(GenericNotFound));
    }

    /** `AddPort`: the checks in order, then the clash scan over every webspace, then
        either the requested external port or an implicit one drawn from the range,
        then the map update and `Save`. The implicit draw skips the used ports in
        the order the scan met them, which is `order`. */
    method AddPort(external: uint16, internal: uint16, s: Settings, all: Result<seq<Record>, Error>,
                   draw: int, replies: SaveReplies) returns (ext: uint16, err: Option<Error>, panicked: bool,
                                                      ghost chosen: uint16, ghost order: seq<uint16>)
      requires PortAllocation.ValidDraw(s.portsStart, s.portsEnd, UsedCount(all), draw)
      modifies this
      ensures AddPortRejection(|old(ports)|, external, internal, s, all).Some? ==>
        !panicked && err == AddPortRejection(|old(ports)|, external, internal, s, all) && ext == 0
        && Snapshot() == old(Snapshot())
      ensures AddPortRejection(|old(ports)|, external, internal, s, all).None? && external != 0 ==>
        !panicked && Snapshot() == old(Snapshot()).(ports := old(ports)[external := internal])
        && err == SaveResult(Snapshot(), replies) && ext == (if err.None? then external else 0)
      ensures AddPortRejection(|old(ports)|, external, internal, s, all).None? && external == 0 ==>
        (panicked && Snapshot() == old(Snapshot()))
        || (!panicked && Snapshot() == old(Snapshot()).(ports := old(ports)[chosen := internal])
              && err == SaveResult(Snapshot(), replies) && ext == (if err.None? then chosen else 0))
      ensures AddPortRejection(|old(ports)|, external, internal, s, all).None? && external == 0
        && UsedCount(all) <= s.portsEnd - s.portsStart && s.portsEnd - s.portsStart + 1 - UsedCount(all) < 65536
        ==> !panicked
      ensures AddPortRejection(|old(ports)|, external, internal, s, all).None? && external == 0 && err.None?
        && UsedCount(all) <= s.portsEnd - s.portsStart && s.portsEnd - s.portsStart + 1 - UsedCount(all) < 65536
        ==> s.portsStart <= ext <= s.portsEnd
      ensures AddPortRejection(|old(ports)|, external, internal, s, all).None? && external == 0 ==>
        VisitOrder(order, all)
        && (panicked <==> PortAllocation.AllocateAsWritten(s.portsStart, s.portsEnd, order, draw).DrawPanic?)
        && (!panicked ==> chosen == PortAllocation.AllocateAsWritten(s.portsStart, s.portsEnd, order, draw).port)
      ensures AddPortRejection(|old(ports)|, external, internal, s, all).None? && external == 0 && err.None?
        && UsedCount(all) <= s.portsEnd - s.portsStart && s.portsEnd - s.portsStart + 1 - UsedCount(all) < 65536
        && Sorted(order)
        ==> !Lookups.Forwarded(PortMaps(all.value), ext)
    {
      var rejected, allPorts := CheckAddPort(|ports|, external, internal, s, all);
      if rejected.Some? {
        return 0, rejected, false, 0, [];
      }
      order := allPorts;
      var port := external;
      if external == 0 {
        var panic;
        port, panic := PortAllocation.DrawPort(s.portsStart, s.portsEnd, allPorts, draw);
        if panic {
          return 0, None, true, 0, order;
        }
      }
      ports := ports[port := internal];
      err := SaveResult(Snapshot(), replies);
      ext := if err.None? then port else 0;
      panicked := false;
      chosen := port;
    }

    /** `RemovePort`: only a forwarded external port can be removed. */
    method RemovePort(external: uint16, replies: SaveReplies) returns (err: Option<Error>)
      modifies this
      ensures external !in old(ports) ==> err == Some(Root(GenericNotFound)) && Snapshot() == old(Snapshot())
      ensures external in old(ports) ==>
        Snapshot() == old(Snapshot()).(ports := old(ports) - {external})
        && err == SaveResult(Snapshot(), replies)
    {
      if external !in ports {
        return Some(Root(GenericNotFound));
      }
      ports := ports - {external};
      err := SaveResult(Snapshot(), replies);
    }
  }

  // ---------------------------------------------------------------------------
  // Primary address (GetIP)

  datatype AddressInfo = AddressInfo(family: string, scope: string, address: string)

  /** The network part of an LXD instance state: addresses per interface. */
  type InstanceState = map<string, seq<AddressInfo>>

  predicate GlobalInet(a: AddressInfo) {
    a.family == "inet" && a.scope == "global"
  }

  /** The address of the last global IPv4 entry, or "" when there is none. */
  function LastGlobalInet(addrs: seq<AddressInfo>): string {
    if addrs == [] then ""
    else if GlobalInet(addrs[|addrs| - 1]) then addrs[|addrs| - 1].address
    else LastGlobalInet(addrs[..|addrs| - 1])
  }

  /** `GetIP`: the state comes from the caller or from LXD; `eth0` must exist and
      carry a global IPv4 address with a non-empty text. */
  method GetIP(state: Result<InstanceState, Error>) returns (r: Result<string, Error>)
    ensures state.Err? ==> r == Err(Wrap("failed to get LXD instance state: ", ConvertLXDError(state.error)))
    ensures state.Ok? && "eth0" !in state.value ==> r == Err(Root(Interface))
    ensures state.Ok? && "eth0" in state.value ==>
      r == (if LastGlobalInet(state.value["eth0"]) == "" then Err(Root(Address))
            else Ok(LastGlobalInet(state.value["eth0"])))
  {
    if state.Err? {
      return Err(Wrap("failed to get LXD instance state: ", ConvertLXDError(state.error)));
    }
    if "eth0" !in state.value {
      return Err(Root(Interface));
    }
    var addrs := state.value["eth0"];
    var addr := "";
    for i := 0 to |addrs|
      invariant addr == LastGlobalInet(addrs[..i])
    {
      assert addrs[..i + 1][..i] == addrs[..i];
      if !GlobalInet(addrs[i]) {
        continue;
      }
      addr := addrs[i].address;
    }
    assert addrs[..|addrs|] == addrs;
    if addr == "" {
      return Err(Root(Address));
    }
    return Ok(addr);
  }

  /** What `LastGlobalInet` picks: a global IPv4 entry with no global IPv4 entry
      after it; "" only when every global IPv4 entry has an empty address. */
  lemma {:induction false} LastGlobalInetIsLast(addrs: seq<AddressInfo>)
    ensures LastGlobalInet(addrs) != "" ==>
      exists k :: 0 <= k < |addrs| && GlobalInet(addrs[k]) && addrs[k].address == LastGlobalInet(addrs)
        && forall j :: k < j < |addrs| ==> !GlobalInet(addrs[j])
    ensures (forall k :: 0 <= k < |addrs| ==> !GlobalInet(addrs[k])) ==> LastGlobalInet(addrs) == ""
  {
    if addrs != [] && !GlobalInet(addrs[|addrs| - 1]) {
      var init := addrs[..|addrs| - 1];
      LastGlobalInetIsLast(init);
      assert LastGlobalInet(addrs) == LastGlobalInet(init);
      if LastGlobalInet(init) != "" {
        var k :| 0 <= k < |init| && GlobalInet(init[k]) && init[k].address == LastGlobalInet(init)
          && forall j :: k < j < |init| ==> !GlobalInet(init[j]);
        assert addrs[k] == init[k];
        forall j | k < j < |addrs| ensures !GlobalInet(addrs[j]) {
          if j < |init| {
            assert addrs[j] == init[j];
          }
        }
      }
      if forall k :: 0 <= k < |addrs| ==> !GlobalInet(addrs[k]) {
        forall k | 0 <= k < |init| ensures !GlobalInet(init[k]) {
          assert init[k] == addrs[k];
        }
      }
    } else if addrs != [] {
      var k := |addrs| - 1;
      assert GlobalInet(addrs[k]) && addrs[k].address == LastGlobalInet(addrs);
    }
  }

}
