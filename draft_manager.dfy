/** The webspace manager of the older generation
    (webspaced/internal/webspace/manager.go): instances are named after the Unix
    user, the event handler keeps no timestamp, and "restarted" is not a known
    action. */
module DraftManager {
  import opened Util
  import opened Errors
  import D = DraftWebspace
  import DraftPorts
  import Ports
  import M = Manager

  /** `lxdInstanceName`: the user name followed by the configured suffix. */
  function InstanceName(user: string, suffix: string): (name: string)
    ensures |name| == |user| + |suffix|
    ensures name[..|user|] == user && name[|user|..] == suffix
  {
    user + suffix
  }

  /** Different users get different instances. */
  lemma InstanceNameInjective(a: string, b: string, suffix: string)
    requires InstanceName(a, suffix) == InstanceName(b, suffix)
    ensures a == b
  {
    assert |a| == |b|;
    calc {
      a;
      InstanceName(a, suffix)[..|a|];
      InstanceName(b, suffix)[..|b|];
      b;
    }
  }

  /** The action table of this generation: as the current one, without "restarted". */
  function Classify(action: string): M.Reaction {
    match action
    case "deleted" => M.Forget
    case "started" => M.IsRunning
    case "shutdown" => M.IsStopped
    case "created" => M.IsStopped
    case "updated" => M.QueryState
    case _ => M.Unknown
  }

  /** The two generations classify every action alike except "restarted", which
      the older one ignores as unknown. */
  lemma ClassifyGenerations(action: string)
    ensures Classify(action) != M.Classify(action) <==> action == "restarted"
    ensures action == "restarted" ==> Classify(action) == M.Unknown && M.Classify(action) == M.IsRunning
  {
  }

  // ---------------------------------------------------------------------------
  // Records stored in LXD

  /** The value under `user._webspaced`: a record of this generation, or the JSON
      decoder's complaint. */
  datatype Stored = Decodes(record: D.Record) | Malformed(jsonError: string)

  type InstanceConfig = map<string, Stored>

  /** `instanceToWebspace`: the package's own bad-value error for a negative delay. */
  function InstanceToWebspace(config: InstanceConfig): Result<D.Record, Error> {
    if M.LxdConfigKey !in config then
      Err(Foreign("failed to retrieve webspace instance configuration from LXD"))
    else match config[M.LxdConfigKey]
      case Malformed(e) =>
        Err(Wrap("failed to parse webspace configuration stored in LXD: ", Foreign(e)))
      case Decodes(r) =>
        if r.config.startupDelay < 0.0 then Err(Root(WsBadValue)) else Ok(r)
  }

  /** A missing key is an error, a negative delay a bad value, and otherwise the
      stored record is the webspace. */
  lemma InstanceToWebspaceDecodes(config: InstanceConfig)
    ensures InstanceToWebspace(config).Ok? <==>
              (M.LxdConfigKey in config && config[M.LxdConfigKey].Decodes? &&
               config[M.LxdConfigKey].record.config.startupDelay >= 0.0)
    ensures InstanceToWebspace(config).Ok? ==> InstanceToWebspace(config).value == config[M.LxdConfigKey].record
    ensures M.LxdConfigKey !in config ==> InstanceToWebspace(config) == Err(Foreign("failed to retrieve webspace instance configuration from LXD"))
    ensures M.LxdConfigKey in config && config[M.LxdConfigKey].Decodes? && config[M.LxdConfigKey].record.config.startupDelay < 0.0
            ==> InstanceToWebspace(config) == Err(Root(WsBadValue))
  {
  }

  /** A record that fails to decode is a foreign error or the bad-value sentinel. */
  lemma InstanceToWebspaceRoot(config: InstanceConfig)
    requires InstanceToWebspace(config).Err?
    ensures RootOf(InstanceToWebspace(config).error) in {None, Some(WsBadValue)}
  {
    if M.LxdConfigKey in config && config[M.LxdConfigKey].Malformed? {
      assert RootOf(InstanceToWebspace(config).error) == None;
    }
  }

  /** `Get`: fetch the user's instance and decode it; there is no owner check. */
  function Get(instance: Result<InstanceConfig, Error>): (r: Result<D.Record, Error>)
    ensures instance.Err? ==> r == Err(Wrap("failed to get LXD instance: ", ConvertLXDErrorDraft(instance.error)))
    ensures instance.Ok? ==> r == InstanceToWebspace(instance.value)
  {
    if instance.Err? then Err(Wrap("failed to get LXD instance: ", ConvertLXDErrorDraft(instance.error)))
    else InstanceToWebspace(instance.value)
  }

  /** `GetAll`: decode every instance that carries a record, skipping the others;
      the first record that fails to decode fails the whole listing. */
  method GetAll(listing: Result<seq<M.Instance<Stored>>, Error>) returns (r: Result<seq<D.Record>, Error>)
    ensures listing.Err? ==> r == Err(Wrap("failed to retrieve LXD instances: ", ConvertLXDErrorDraft(listing.error)))
    ensures listing.Ok? ==> (r.Ok? <==> forall c :: c in M.Configured(listing.value) ==> InstanceToWebspace(c.config).Ok?)
    ensures r.Ok? ==> |r.value| == |M.Configured(listing.value)|
    ensures r.Ok? ==> forall k :: 0 <= k < |r.value| ==>
      Ok(r.value[k]) == InstanceToWebspace(M.Configured(listing.value)[k].config)
    ensures listing.Ok? && r.Err? ==> exists c :: c in M.Configured(listing.value) && Err(r.error) == InstanceToWebspace(c.config)
  {
    if listing.Err? {
      return Err(Wrap("failed to retrieve LXD instances: ", ConvertLXDErrorDraft(listing.error)));
    }
    var instances := listing.value;
    var webspaces: seq<D.Record> := [];
    for i := 0 to |instances|
      invariant |webspaces| == |M.Configured(instances[..i])|
      invariant forall k :: 0 <= k < |webspaces| ==> Ok(webspaces[k]) == InstanceToWebspace(M.Configured(instances[..i])[k].config)
      invariant forall c :: c in M.Configured(instances[..i]) ==> InstanceToWebspace(c.config).Ok?
    {
      M.ConfiguredSnoc(instances, i);
      if M.LxdConfigKey !in instances[i].config {
        continue;
      }
      var w := InstanceToWebspace(instances[i].config);
      if w.Err? {
        M.ConfiguredPrefix(instances, i);
        return Err(w.error);
      }
      webspaces := webspaces + [w.value];
    }
    assert instances[..|instances|] == instances;
    return Ok(webspaces);
  }

  // ---------------------------------------------------------------------------
  // The LXD event handler

  /** The answers of LXD and Traefik to the handler's calls. */
  datatype EventReplies = EventReplies(
    clear: Option<Error>, all: Result<seq<D.Record>, Error>, get: Result<D.Record, Error>,
    running: Result<bool, Error>, ip: Result<string, Error>, generate: Option<Error>,
    listen: uint16 -> Option<Error>)

  class Manager {
    const suffix: string
    const ports: DraftPorts.PortsManager

    constructor (suffix: string, ports: DraftPorts.PortsManager)
      ensures this.suffix == suffix && this.ports == ports
    {
      this.suffix := suffix;
      this.ports := ports;
    }

    /** `onLxdEvent`. `user` is the group the event-source expression captures,
        `None` when the source is not a webspace instance's. */
    method OnLxdEvent(details: Option<M.EventDetails>, user: Option<string>, replies: EventReplies)
      returns (steps: seq<M.Step<string>>)
      requires ports.Valid()
      modifies ports
      ensures ports.Valid()
      ensures details.None? || user.None? ==> steps == []
      ensures steps != [] ==> details.Some? && user.Some? && steps[0] == M.ClearConfig(InstanceName(user.value, suffix))
      ensures |steps| <= 4
      ensures |steps| >= 2 ==> replies.clear.None? && replies.all.Ok? && steps[1] == M.TrimPorts
      ensures |steps| >= 3 ==>
        M.ActionOf(details.value.action).Some? &&
        var reaction := Classify(M.ActionOf(details.value.action).value);
        reaction in {M.IsRunning, M.IsStopped, M.QueryState}
        && replies.get.Ok? && M.AddressFor(reaction, replies.running, replies.ip).Some?
        && steps[2] == M.GenerateConfig(replies.get.value.user, M.AddressFor(reaction, replies.running, replies.ip).value)
      ensures |steps| >= 3 ==> forall p :: !Ports.SharedPort(D.PortMaps(replies.all.value), p)
      ensures |steps| == 4 ==> replies.generate.None? && steps[3] == M.AddAllPorts(steps[2].owner, steps[2].addr)
      ensures |steps| <= 1 ==> ports.forwards == old(ports.forwards) && ports.listening == old(ports.listening)
      ensures |steps| >= 2 && (exists p :: Ports.SharedPort(D.PortMaps(replies.all.value), p)) ==>
        |steps| == 2 && ports.forwards == old(ports.forwards) && ports.listening == old(ports.listening)
      ensures 2 <= |steps| <= 3 && (forall p :: !Ports.SharedPort(D.PortMaps(replies.all.value), p)) ==>
        DraftPorts.TrimmedOutside(old(ports.forwards), ports.forwards, D.PortMaps(replies.all.value), {})
      ensures |steps| == 4 ==>
        DraftPorts.TrimmedOutside(old(ports.forwards), ports.forwards, D.PortMaps(replies.all.value), replies.get.value.ports.Keys)
        && (DraftPorts.ListensAll(replies.get.value.ports, replies.listen) ==>
              Ports.AddedAll(ports.forwards, replies.get.value.ports, steps[2].addr))
    {
      steps := [];
      if details.None? || user.None? {
        return;
      }
      steps := [M.ClearConfig(InstanceName(user.value, suffix))];
      if replies.clear.Some? || replies.all.Err? {
        return;
      }
      steps := steps + [M.TrimPorts];
      var trimmed := ports.Trim(D.PortMaps(replies.all.value));
      if trimmed.Some? {
        return;
      }
      var tail := Regenerate(details.value.action, replies);
      steps := steps + tail;
    }

    /** The part of `onLxdEvent` after the trim. */
    method Regenerate(action: string, replies: EventReplies) returns (steps: seq<M.Step<string>>)
      requires ports.Valid()
      modifies ports
      ensures ports.Valid()
      ensures |steps| <= 2
      ensures |steps| >= 1 ==>
        M.ActionOf(action).Some? &&
        var reaction := Classify(M.ActionOf(action).value);
        reaction in {M.IsRunning, M.IsStopped, M.QueryState}
        && replies.get.Ok? && M.AddressFor(reaction, replies.running, replies.ip).Some?
        && steps[0] == M.GenerateConfig(replies.get.value.user, M.AddressFor(reaction, replies.running, replies.ip).value)
      ensures |steps| == 2 ==> replies.generate.None? && steps[1] == M.AddAllPorts(steps[0].owner, steps[0].addr)
      ensures |steps| <= 1 ==> ports.forwards == old(ports.forwards) && ports.listening == old(ports.listening)
      ensures |steps| == 2 ==> Ports.SameOutside(old(ports.forwards), ports.forwards, replies.get.value.ports.Keys)
      ensures |steps| == 2 && DraftPorts.ListensAll(replies.get.value.ports, replies.listen) ==>
        Ports.AddedAll(ports.forwards, replies.get.value.ports, steps[0].addr)
      ensures M.ActionOf(action).None? || Classify(M.ActionOf(action).value) in {M.Forget, M.Unknown} ==> steps == []
      ensures replies.get.Ok? && M.ActionOf(action).Some? &&
                Classify(M.ActionOf(action).value) in {M.IsRunning, M.IsStopped, M.QueryState} &&
                M.AddressFor(Classify(M.ActionOf(action).value), replies.running, replies.ip).Some?
              ==> |steps| >= 1
    {
      steps := [];
      var name := M.ActionOf(action);
      if name.None? {
        return;
      }
      var reaction := Classify(name.value);
      if reaction == M.Forget || replies.get.Err? {
        return;
      }
      var w := replies.get.value;
      var running: bool;
      match reaction {
        case IsRunning => running := true;
        case IsStopped => running := false;
        case QueryState =>
          if replies.running.Err? {
            return;
          }
          running := replies.running.value;
        case Unknown => return;
      }
      var addr := "";
      if running {
        if replies.ip.Err? {
          return;
        }
        addr := replies.ip.value;
      }
      steps := [M.GenerateConfig(w.user, addr)];
      if replies.generate.Some? {
        return;
      }
      steps := steps + [M.AddAllPorts(w.user, addr)];
      var _, _, _ := ports.AddAll(w.ports, addr, replies.listen);
    }
  }

  // ---------------------------------------------------------------------------
  // Create

  /** The record the older `Create` in manager.go starts with: the defaults, the
      user's own subdomain, no ports. */
  function NewRecord(user: string, s: D.Settings): (r: D.Record)
    ensures r.user == user && r.config == s.configDefaults
    ensures r.domains == [user + "." + s.domain] && r.ports == map[]
  {
    D.Record(user, s.configDefaults, [user + "." + s.domain], map[])
  }

  /** The two creation paths of this generation agree except on the domain list. */
  lemma NewRecordsDiffer(user: string, s: D.Settings)
    ensures NewRecord(user, s) == D.NewRecord(user, s).(domains := [user + "." + s.domain])
  {
  }

  /** Nothing checks the delay before the record is stored, so a negative default
      delay produces an instance whose record cannot be read back. */
  lemma NewRecordReadBack(user: string, s: D.Settings)
    ensures InstanceToWebspace(map[M.LxdConfigKey := Decodes(NewRecord(user, s))]).Ok?
            <==> s.configDefaults.startupDelay >= 0.0
  {
  }

  /** The answers to `Create`'s calls: instance creation and its operation,
      starting, each command run, the image's `os` property, the SSH forward and
      stopping. */
  datatype CreateReplies = CreateReplies(
    create: Option<Error>, wait: Option<Error>, start: Option<Error>, exec: string -> Option<Error>,
    os: Result<Option<string>, Error>, addPort: Option<Error>, stop: Option<Error>)

  /** `Create`: the image is always a fingerprint here. */
  method Create(s: D.Settings, suffix: string, user: string, image: string, password: string, sshKey: string,
                replies: CreateReplies) returns (err: Option<Error>, steps: seq<M.CreateStep<D.Record>>)
    ensures steps != [] && steps[0] == M.CreateInstance(InstanceName(user, suffix), NewRecord(user, s), image)
    ensures replies.create.Some? ==>
      err == Some(Wrap("failed to create LXD instance: ", ConvertLXDErrorDraft(replies.create.value))) && |steps| == 1
    ensures password == "" && sshKey == "" ==> |steps| <= 1
    ensures M.StartInstance in steps ==> password != "" || sshKey != ""
    ensures M.AddSshForward in steps ==>
      sshKey != "" && replies.os.Ok? && replies.os.value.Some? && M.SshdCommand(replies.os.value.value).Some?
      && M.Exec(M.SshdCommand(replies.os.value.value).value) in steps && M.Exec(M.StoreKeyCommand(sshKey)) in steps
    ensures err.None? && sshKey != "" ==> replies.os.Ok?
    ensures err.None? && sshKey != "" && replies.os.Ok? && replies.os.value.Some? && M.SshdCommand(replies.os.value.value).Some?
      ==> M.AddSshForward in steps
    ensures sshKey != "" && replies.os.Ok? && replies.os.value.Some? && M.SshdCommand(replies.os.value.value).None?
      ==> M.AddSshForward !in steps && M.Exec(M.StoreKeyCommand(sshKey)) !in steps
    ensures err.None? && (password != "" || sshKey != "") ==> steps[|steps| - 1] == M.StopInstance
  {
    var record := NewRecord(user, s);
    steps := [M.CreateInstance(InstanceName(user, suffix), record, image)];
    if replies.create.Some? {
      return Some(Wrap("failed to create LXD instance: ", ConvertLXDErrorDraft(replies.create.value))), steps;
    }
    if replies.wait.Some? {
      return Some(Wrap("failed to create LXD instance: ", ConvertLXDErrorDraft(replies.wait.value))), steps;
    }
    var osInfo := match replies.os case Err(e) => Err(ConvertLXDErrorDraft(e)) case Ok(v) => Ok(v);
    var rest;
    err, rest := M.Provision(password, sshKey, replies.start, replies.exec, osInfo, replies.addPort, replies.stop);
    steps := steps + rest;
  }
}
