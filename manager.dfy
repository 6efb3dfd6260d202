/** The webspace manager of the current generation (internal/webspace/manager.go):
    instance naming, the reaction to LXD lifecycle events, reading webspace records
    back from LXD instances, the Traefik provider choice and the steps of `Create`.
    LXD, IAM and Traefik calls are replies handed to the operations; the port
    forwards are a real `Ports.PortsManager` the event handler updates. */
module Manager {
  import opened Util
  import opened Errors
  import W = Webspace
  import Ports

  /** The LXD instance configuration key holding the serialised record. */
  const LxdConfigKey: string := "user._webspaced"

  /** Go's `int` on the 64-bit targets the daemon runs on. */
  const MaxInt: int := 0x7fff_ffff_ffff_ffff

  // ---------------------------------------------------------------------------
  // Instance names and event sources

  /** `lxdInstanceName`: the prefix, a `u`, then the user id in decimal. */
  function InstanceName(prefix: string, uid: int): (n: string)
    ensures |n| > |prefix| + 1 && n[..|prefix|] == prefix && n[|prefix|] == 'u'
    ensures uid >= 0 ==> n[|prefix| + 1..] == DecimalString(uid)
  {
    prefix + "u" + IntString(uid)
  }

  /** Different users never share an instance. */
  lemma InstanceNameInjective(prefix: string, a: nat, b: nat)
    requires InstanceName(prefix, a) == InstanceName(prefix, b)
    ensures a == b
  {
    DecimalInjective(a, b);
  }

  /** A match of `^/1\.0/\S+/<prefix>u(\d+)$`: the part `\S+` covers and the
      captured digits. */
  datatype SourceMatch = SourceMatch(path: string, digits: string)

  /** The length of the run of digits that ends just before `hi`. */
  function DigitRun(s: string, hi: nat): (n: nat)
    requires hi <= |s|
    ensures n <= hi
    ensures forall i :: hi - n <= i < hi ==> IsDigit(s[i])
    ensures n < hi ==> !IsDigit(s[hi - n - 1])
  {
    if hi == 0 || !IsDigit(s[hi - 1]) then 0 else DigitRun(s, hi - 1) + 1
  }

  /** How many decimal digits end `s`. */
  function TrailingDigits(s: string): (n: nat)
    ensures n <= |s|
    ensures AllDigits(s[|s| - n..])
    ensures n < |s| ==> !IsDigit(s[|s| - n - 1])
  {
    DigitRun(s, |s|)
  }

  /** Digits after a non-digit run back exactly to it. */
  lemma {:induction false} DigitRunAfter(x: string, d: string, k: nat)
    requires |x| >= 1 && !IsDigit(x[|x| - 1]) && AllDigits(d) && k <= |d|
    ensures DigitRun(x + d, |x| + k) == k
    decreases k
  {
    if k == 0 {
      assert (x + d)[|x| - 1] == x[|x| - 1];
    } else {
      assert (x + d)[|x| + k - 1] == d[k - 1];
      DigitRunAfter(x, d, k - 1);
    }
  }

  lemma TrailingDigitsAfter(x: string, d: string)
    requires |x| >= 1 && !IsDigit(x[|x| - 1]) && AllDigits(d)
    ensures TrailingDigits(x + d) == |d|
  {
    DigitRunAfter(x, d, |d|);
  }

  /** The event-source regular expression. Because the digits run to the end and
      are preceded by `u`, the captured group is exactly the trailing digit run. */
  function ParseSource(prefix: string, src: string): (r: Option<SourceMatch>)
    ensures r.Some? ==> |r.value.path| >= 1 && NoSpace(r.value.path)
    ensures r.Some? ==> |r.value.digits| >= 1 && AllDigits(r.value.digits)
    ensures r.Some? ==> src == "/1.0/" + r.value.path + "/" + prefix + "u" + r.value.digits
  {
    var n := TrailingDigits(src);
    var k := |src| - n;
    var tail := "/" + prefix + "u";
    if n == 0 || k < 6 + |tail| then None
    else if src[..5] != "/1.0/" || src[k - |tail|..k] != tail then None
    else
      var path := src[5..k - |tail|];
      if !NoSpace(path) then None
      else
        assert src == src[..5] + path + src[k - |tail|..k] + src[k..];
        Some(SourceMatch(path, src[k..]))
  }

  /** Every source of the regular expression's shape is recognised, with its own
      path and digits. */
  lemma ParseSourceComplete(prefix: string, path: string, digits: string)
    requires |path| >= 1 && NoSpace(path) && |digits| >= 1 && AllDigits(digits)
    ensures ParseSource(prefix, "/1.0/" + path + "/" + prefix + "u" + digits) == Some(SourceMatch(path, digits))
  {
    var tail := "/" + prefix + "u";
    var head := "/1.0/" + path + "/" + prefix + "u";
    var src := head + digits;
    TrailingDigitsAfter(head, digits);
    var k := |head|;
    assert k == 5 + |path| + |tail|;
    assert src[..5] == "/1.0/" by {
      assert src[..5] == head[..5];
    }
    assert src[k - |tail|..k] == tail by {
      assert src[k - |tail|..k] == head[5 + |path|..];
    }
    assert src[5..k - |tail|] == path by {
      assert src[5..k - |tail|] == head[5..5 + |path|];
    }
    assert src[k..] == digits;
  }

  /** The user id an event is about: the captured digits, as `strconv.Atoi` reads
      them (values beyond `int` are refused). */
  function EventUid(prefix: string, src: string): (uid: Option<int>)
    ensures uid.Some? ==> 0 <= uid.value <= MaxInt
    ensures uid.Some? ==> ParseSource(prefix, src).Some? && uid.value == DigitsValue(ParseSource(prefix, src).value.digits)
  {
    var m := ParseSource(prefix, src);
    if m.None? || DigitsValue(m.value.digits) > MaxInt then None
    else Some(DigitsValue(m.value.digits))
  }

  /** A source of the regular expression's shape yields the value of its digits,
      when `strconv.Atoi` accepts it. */
  lemma EventUidOfShape(prefix: string, path: string, digits: string)
    requires |path| >= 1 && NoSpace(path) && |digits| >= 1 && AllDigits(digits)
    ensures EventUid(prefix, "/1.0/" + path + "/" + prefix + "u" + digits)
            == if DigitsValue(digits) > MaxInt then None else Some(DigitsValue(digits))
  {
    ParseSourceComplete(prefix, path, digits);
  }

  /** Events about an instance the manager named lead back to its user. */
  lemma EventUidRoundTrip(prefix: string, uid: nat)
    requires uid <= MaxInt
    ensures EventUid(prefix, "/1.0/instances/" + InstanceName(prefix, uid)) == Some(uid)
  {
    var digits := DecimalString(uid);
    var dir := "/1.0/" + "instances" + "/";
    assert dir == "/1.0/instances/";
    assert InstanceName(prefix, uid) == prefix + "u" + digits;
    assert dir + (prefix + "u" + digits) == dir + prefix + "u" + digits;
    EventUidOfShape(prefix, "instances", digits);
    DecimalRoundTrip(uid);
  }

  // ---------------------------------------------------------------------------
  // Event actions

  /** The last `-` in `s[1..hi]`. */
  function LastDash(s: string, hi: nat): (i: Option<nat>)
    requires hi < |s|
    ensures i.Some? ==> 1 <= i.value <= hi && s[i.value] == '-'
    ensures i.Some? ==> forall j :: i.value < j <= hi ==> s[j] != '-'
    ensures i.None? ==> forall j :: 1 <= j <= hi ==> s[j] != '-'
    decreases hi
  {
    if hi == 0 then None
    else if s[hi] == '-' then Some(hi)
    else LastDash(s, hi - 1)
  }

  /** `^\S+-(\S+)$`: the greedy `\S+` makes the split fall on the last `-` that has
      something on both sides; the action is what follows it. */
  function ActionOf(action: string): (r: Option<string>)
    ensures r.Some? ==> NoSpace(action) && exists i :: 1 <= i <= |action| - 2 && action[i] == '-' && r.value == action[i + 1..]
    ensures r.None? ==> !NoSpace(action) || forall j :: 1 <= j <= |action| - 2 ==> action[j] != '-'
  {
    if !NoSpace(action) || |action| < 3 then None
    else
      var i := LastDash(action, |action| - 2);
      if i.None? then None else Some(action[i.value + 1..])
  }

  /** LXD lifecycle actions have the form `<kind>-<verb>`; the verb is what the
      handler looks at. */
  lemma ActionOfLifecycle(kind: string, verb: string)
    requires |kind| >= 1 && NoSpace(kind) && |verb| >= 1 && NoSpace(verb)
    requires forall j :: 0 <= j < |verb| ==> verb[j] != '-'
    ensures ActionOf(kind + "-" + verb) == Some(verb)
  {
    var a := kind + "-" + verb;
    assert a[|kind|] == '-';
    assert forall j :: |kind| < j < |a| ==> a[j] == verb[j - |kind| - 1];
    assert NoSpace(a) by {
      forall j | 0 <= j < |a| ensures !IsSpace(a[j]) {
        if j < |kind| { assert a[j] == kind[j]; }
      }
    }
    var i := LastDash(a, |a| - 2);
    assert i == Some(|kind|);
    assert a[|kind| + 1..] == verb;
  }

  /** What the handler does for an action. */
  datatype Reaction =
    | Unknown     // warn and stop
    | Forget      // the instance is gone: clear and trim only
    | IsRunning   // regenerate with the instance's address
    | IsStopped   // regenerate without an address
    | QueryState  // ask LXD whether the instance runs

  function Classify(action: string): Reaction {
    match action
    case "deleted" => Forget
    case "started" => IsRunning
    case "restarted" => IsRunning
    case "shutdown" => IsStopped
    case "created" => IsStopped
    case "updated" => QueryState
    case _ => Unknown
  }

  // ---------------------------------------------------------------------------
  // Records stored in LXD

  /** The value under `user._webspaced`: a record the JSON decodes to, or the
      decoder's complaint. */
  datatype Stored = Decodes(record: W.Record) | Malformed(jsonError: string)

  type InstanceConfig = map<string, Stored>

  /** An LXD instance: its name and its configuration, whose values are of type `V`. */
  datatype Instance<V> = Instance(name: string, config: map<string, V>)

  /** `instanceToWebspace`. */
  function InstanceToWebspace(config: InstanceConfig): Result<W.Record, Error> {
    if LxdConfigKey !in config then
      Err(Foreign("failed to retrieve webspace instance configuration from LXD"))
    else match config[LxdConfigKey]
      case Malformed(e) =>
        Err(Wrap("failed to parse webspace configuration stored in LXD: ", Foreign(e)))
      case Decodes(r) =>
        if r.config.startupDelay < 0.0 then Err(Root(BadValue)) else Ok(r)
  }

  /** A missing key is an error, a negative delay a bad value, and otherwise the
      stored record is the webspace. */
  lemma InstanceToWebspaceDecodes(config: InstanceConfig)
    ensures InstanceToWebspace(config).Ok? <==>
              (LxdConfigKey in config && config[LxdConfigKey].Decodes? &&
               config[LxdConfigKey].record.config.startupDelay >= 0.0)
    ensures InstanceToWebspace(config).Ok? ==> InstanceToWebspace(config).value == config[LxdConfigKey].record
    ensures LxdConfigKey !in config ==> InstanceToWebspace(config) == Err(Foreign("failed to retrieve webspace instance configuration from LXD"))
    ensures LxdConfigKey in config && config[LxdConfigKey].Decodes? && config[LxdConfigKey].record.config.startupDelay < 0.0
            ==> InstanceToWebspace(config) == Err(Root(BadValue))
  {
  }

  /** What `Save` and `Create` write is what `instanceToWebspace` reads back. */
  lemma StoredRoundTrip(r: W.Record)
    requires W.LxdConfig(r).Ok?
    ensures InstanceToWebspace(map[LxdConfigKey := Decodes(W.LxdConfig(r).value)]) == Ok(r)
  {
  }

  /** `Get`: a user hint must be about the same user; then the instance named after
      the user is fetched and decoded. */
  function Get(uid: int, hint: Option<W.User>, instance: Result<InstanceConfig, Error>): (r: Result<W.Record, Error>)
    ensures hint.Some? && hint.value.id != uid ==> r == Err(Root(UIDMismatch))
    ensures (hint.None? || hint.value.id == uid) && instance.Err? ==>
      r == Err(Wrap("failed to get LXD instance: ", ConvertLXDError(instance.error)))
    ensures r.Ok? ==> instance.Ok? && InstanceToWebspace(instance.value) == r
  {
    if hint.Some? && hint.value.id != uid then Err(Root(UIDMismatch))
    else if instance.Err? then Err(Wrap("failed to get LXD instance: ", ConvertLXDError(instance.error)))
    else InstanceToWebspace(instance.value)
  }

  /** The instances that carry a webspace record, in listing order. */
  function Configured<V>(instances: seq<Instance<V>>): (c: seq<Instance<V>>)
    ensures |c| <= |instances|
    ensures forall k :: 0 <= k < |c| ==> c[k] in instances && LxdConfigKey in c[k].config
  {
    if instances == [] then []
    else
      var last := instances[|instances| - 1];
      var init := Configured(instances[..|instances| - 1]);
      assert forall k :: 0 <= k < |init| ==> init[k] in instances by {
        forall k | 0 <= k < |init| ensures init[k] in instances {
          var j :| 0 <= j < |instances| - 1 && instances[..|instances| - 1][j] == init[k];
          assert instances[j] == init[k];
        }
      }
      if LxdConfigKey in last.config then init + [last] else init
  }

  /** `GetAll`: decode every instance that carries a record, skipping the others;
      the first record that fails to decode fails the whole listing. */
  method GetAll(listing: Result<seq<Instance<Stored>>, Error>) returns (r: Result<seq<W.Record>, Error>)
    ensures listing.Err? ==> r == Err(Wrap("failed to retrieve LXD instances: ", ConvertLXDError(listing.error)))
    ensures listing.Ok? ==> (r.Ok? <==> forall c :: c in Configured(listing.value) ==> InstanceToWebspace(c.config).Ok?)
    ensures r.Ok? ==> |r.value| == |Configured(listing.value)|
    ensures r.Ok? ==> forall k :: 0 <= k < |r.value| ==>
      Ok(r.value[k]) == InstanceToWebspace(Configured(listing.value)[k].config)
    ensures r.Ok? ==> forall k :: 0 <= k < |r.value| ==> r.value[k].config.startupDelay >= 0.0
    ensures listing.Ok? && r.Err? ==> exists c :: c in Configured(listing.value) && Err(r.error) == InstanceToWebspace(c.config)
  {
    if listing.Err? {
      return Err(Wrap("failed to retrieve LXD instances: ", ConvertLXDError(listing.error)));
    }
    var instances := listing.value;
    var webspaces: seq<W.Record> := [];
    for i := 0 to |instances|
      invariant |webspaces| == |Configured(instances[..i])|
      invariant forall k :: 0 <= k < |webspaces| ==> Ok(webspaces[k]) == InstanceToWebspace(Configured(instances[..i])[k].config)
      invariant forall c :: c in Configured(instances[..i]) ==> InstanceToWebspace(c.config).Ok?
    {
      ConfiguredSnoc(instances, i);
      if LxdConfigKey !in instances[i].config {
        continue;
      }
      var w := InstanceToWebspace(instances[i].config);
      if w.Err? {
        ConfiguredPrefix(instances, i);
        return Err(w.error);
      }
      webspaces := webspaces + [w.value];
    }
    assert instances[..|instances|] == instances;
    return Ok(webspaces);
  }

  /** Listing one more instance adds it to the configured ones when it carries a
      record. */
  lemma ConfiguredSnoc<V>(instances: seq<Instance<V>>, i: nat)
    requires i < |instances|
    ensures Configured(instances[..i + 1])
            == Configured(instances[..i]) + (if LxdConfigKey in instances[i].config then [instances[i]] else [])
  {
    assert instances[..i + 1][..i] == instances[..i];
  }

  /** An instance with a record is among the configured ones of any listing it
      belongs to. */
  lemma ConfiguredPrefix<V>(instances: seq<Instance<V>>, i: nat)
    requires i < |instances| && LxdConfigKey in instances[i].config
    ensures instances[i] in Configured(instances)
    decreases |instances|
  {
    var n := |instances|;
    if i == n - 1 {
      assert Configured(instances)[|Configured(instances)| - 1] == instances[i];
    } else {
      ConfiguredPrefix(instances[..n - 1], i);
    }
  }

  // ---------------------------------------------------------------------------
  // Provider choice

  datatype Provider = Kubernetes | Redis

  /** `NewManager`'s choice of Traefik configuration backend. */
  function ProviderChoice(provider: string): (r: Result<Provider, Error>)
    ensures r == Ok(Kubernetes) <==> provider == "kubernetes"
    ensures r == Ok(Redis) <==> provider == "redis" || provider == ""
    ensures r.Err? ==> r.error == Root(TraefikProvider) && ErrToStatus(r.error) == 500
  {
    if provider == "kubernetes" then Ok(Kubernetes)
    else if provider == "redis" || provider == "" then Ok(Redis)
    else
      Status500(TraefikProvider);
      Err(Root(TraefikProvider))
  }

  // ---------------------------------------------------------------------------
  // The LXD event handler

  /** The two fields read from an event's metadata. */
  datatype EventDetails = EventDetails(action: string, source: string)

  /** The side effects the handler performs, in order. */
  datatype Step<K> =
    | ClearConfig(name: string)
    | TrimPorts
    | GenerateConfig(owner: K, addr: string)
    | AddAllPorts(owner: K, addr: string)

  /** The answers of LXD, IAM and Traefik to the handler's calls. */
  datatype EventReplies = EventReplies(
    clear: Option<Error>, all: Result<seq<W.Record>, Error>, get: Result<W.Record, Error>,
    running: Result<bool, Error>, ip: Result<string, Error>, generate: Option<Error>,
    listen: uint16 -> Option<Error>, k8s: uint16 -> Ports.K8sReply)

  /** The address the configuration is regenerated with, if one can be had: the
      instance's IP when it runs, "" when it does not. */
  function AddressFor(reaction: Reaction, running: Result<bool, Error>, ip: Result<string, Error>): Option<string> {
    var up := reaction == IsRunning || (reaction == QueryState && running == Ok(true));
    if reaction == QueryState && running.Err? then None
    else if !up then Some("")
    else if ip.Err? then None
    else Some(ip.value)
  }

  class Manager {
    const prefix: string
    const ports: Ports.PortsManager
    /** Timestamp of the last event handled. */
    var lastEvent: int

    constructor (prefix: string, ports: Ports.PortsManager)
      ensures this.prefix == prefix && this.ports == ports && lastEvent == 0
    {
      this.prefix := prefix;
      this.ports := ports;
      lastEvent := 0;
    }

    /** `onLxdEvent`. */
    method OnLxdEvent(timestamp: int, details: Option<EventDetails>, replies: EventReplies) returns (steps: seq<Step<int>>)
      modifies this, ports
      ensures timestamp == old(lastEvent) ==> steps == [] && lastEvent == old(lastEvent)
      ensures timestamp == old(lastEvent) ==> ports.forwards == old(ports.forwards) && ports.svcPorts == old(ports.svcPorts)
      ensures timestamp != old(lastEvent) ==> lastEvent == timestamp
      ensures details.None? || EventUid(prefix, details.value.source).None? ==> steps == []
      ensures steps != [] ==>
        details.Some? && EventUid(prefix, details.value.source).Some?
        && steps[0] == ClearConfig(InstanceName(prefix, EventUid(prefix, details.value.source).value))
      ensures |steps| <= 4
      ensures |steps| >= 2 ==> replies.clear.None? && replies.all.Ok? && steps[1] == TrimPorts
      ensures |steps| >= 3 ==>
        ActionOf(details.value.action).Some? &&
        var reaction := Classify(ActionOf(details.value.action).value);
        reaction in {IsRunning, IsStopped, QueryState}
        && replies.get.Ok? && AddressFor(reaction, replies.running, replies.ip).Some?
        && steps[2] == GenerateConfig(replies.get.value.userID, AddressFor(reaction, replies.running, replies.ip).value)
      ensures |steps| >= 3 ==> forall p :: !Ports.SharedPort(W.PortMaps(replies.all.value), p)
      ensures |steps| == 4 ==> replies.generate.None? && steps[3] == AddAllPorts(steps[2].owner, steps[2].addr)
      ensures |steps| >= 3 ==> details.value.action != "" && Classify(ActionOf(details.value.action).value) != Forget
      ensures |steps| <= 1 ==> ports.forwards == old(ports.forwards) && ports.svcPorts == old(ports.svcPorts)
      ensures |steps| >= 2 && (exists p :: Ports.SharedPort(W.PortMaps(replies.all.value), p)) ==>
        |steps| == 2 && ports.forwards == old(ports.forwards) && ports.svcPorts == old(ports.svcPorts)
      ensures 2 <= |steps| <= 3 && (forall p :: !Ports.SharedPort(W.PortMaps(replies.all.value), p)) ==>
        ports.TrimmedOutside(old(ports.forwards), ports.forwards, W.PortMaps(replies.all.value), old(ports.svcPorts), replies.k8s, {})
      ensures |steps| == 4 ==>
        ports.TrimmedOutside(old(ports.forwards), ports.forwards, W.PortMaps(replies.all.value), old(ports.svcPorts),
                             replies.k8s, replies.get.value.ports.Keys)
        && (ports.AddsSucceed(replies.get.value.ports, replies.listen, replies.k8s) ==>
              Ports.AddedAll(ports.forwards, replies.get.value.ports, steps[2].addr))
    {
      steps := [];
      if timestamp == lastEvent {
        return;
      }
      lastEvent := timestamp;
      if details.None? {
        return;
      }
      var uid := EventUid(prefix, details.value.source);
      if uid.None? {
        return;
      }
      steps := React(uid.value, details.value.action, replies);
    }

    /** What `onLxdEvent` does for an event about user `uid`: clear the
        instance's routing, trim the forwards, then regenerate. */
    method React(uid: int, action: string, replies: EventReplies) returns (steps: seq<Step<int>>)
      modifies ports
      ensures steps != [] && steps[0] == ClearConfig(InstanceName(prefix, uid))
      ensures |steps| <= 4
      ensures |steps| >= 2 ==> replies.clear.None? && replies.all.Ok? && steps[1] == TrimPorts
      ensures |steps| >= 3 ==>
        ActionOf(action).Some? &&
        var reaction := Classify(ActionOf(action).value);
        reaction in {IsRunning, IsStopped, QueryState}
        && replies.get.Ok? && AddressFor(reaction, replies.running, replies.ip).Some?
        && steps[2] == GenerateConfig(replies.get.value.userID, AddressFor(reaction, replies.running, replies.ip).value)
      ensures |steps| >= 3 ==> forall p :: !Ports.SharedPort(W.PortMaps(replies.all.value), p)
      ensures |steps| == 4 ==> replies.generate.None? && steps[3] == AddAllPorts(steps[2].owner, steps[2].addr)
      ensures |steps| >= 3 ==> action != "" && Classify(ActionOf(action).value) != Forget
      ensures |steps| == 1 ==> ports.forwards == old(ports.forwards) && ports.svcPorts == old(ports.svcPorts)
      ensures |steps| >= 2 && (exists p :: Ports.SharedPort(W.PortMaps(replies.all.value), p)) ==>
        |steps| == 2 && ports.forwards == old(ports.forwards) && ports.svcPorts == old(ports.svcPorts)
      ensures 2 <= |steps| <= 3 && (forall p :: !Ports.SharedPort(W.PortMaps(replies.all.value), p)) ==>
        ports.TrimmedOutside(old(ports.forwards), ports.forwards, W.PortMaps(replies.all.value), old(ports.svcPorts), replies.k8s, {})
      ensures |steps| == 4 ==>
        ports.TrimmedOutside(old(ports.forwards), ports.forwards, W.PortMaps(replies.all.value), old(ports.svcPorts),
                             replies.k8s, replies.get.value.ports.Keys)
        && (ports.AddsSucceed(replies.get.value.ports, replies.listen, replies.k8s) ==>
              Ports.AddedAll(ports.forwards, replies.get.value.ports, steps[2].addr))
    {
      steps := [ClearConfig(InstanceName(prefix, uid))];
      if replies.clear.Some? || replies.all.Err? {
        return;
      }
      steps := steps + [TrimPorts];
      var trimmed := ports.Trim(W.PortMaps(replies.all.value), replies.k8s);
      if trimmed.Some? {
        return;
      }
      var tail := Regenerate(action, replies);
      steps := steps + tail;
    }

    /** The part of `onLxdEvent` after the trim: classify the action and regenerate
        the webspace's routing and forwards. */
    method Regenerate(action: string, replies: EventReplies) returns (steps: seq<Step<int>>)
      modifies ports
      ensures |steps| <= 2
      ensures |steps| >= 1 ==>
        ActionOf(action).Some? &&
        var reaction := Classify(ActionOf(action).value);
        reaction in {IsRunning, IsStopped, QueryState}
        && replies.get.Ok? && AddressFor(reaction, replies.running, replies.ip).Some?
        && steps[0] == GenerateConfig(replies.get.value.userID, AddressFor(reaction, replies.running, replies.ip).value)
      ensures |steps| == 2 ==> replies.generate.None? && steps[1] == AddAllPorts(steps[0].owner, steps[0].addr)
      ensures |steps| <= 1 ==> ports.forwards == old(ports.forwards) && ports.svcPorts == old(ports.svcPorts)
      ensures |steps| == 2 ==> Ports.SameOutside(old(ports.forwards), ports.forwards, replies.get.value.ports.Keys)
      ensures |steps| == 2 && ports.AddsSucceed(replies.get.value.ports, replies.listen, replies.k8s) ==>
        Ports.AddedAll(ports.forwards, replies.get.value.ports, steps[0].addr)
      ensures ActionOf(action).None? || Classify(ActionOf(action).value) in {Forget, Unknown} ==> steps == []
      ensures replies.get.Ok? && ActionOf(action).Some? &&
                Classify(ActionOf(action).value) in {IsRunning, IsStopped, QueryState} &&
                AddressFor(Classify(ActionOf(action).value), replies.running, replies.ip).Some?
              ==> |steps| >= 1
    {
      steps := [];
      var name := ActionOf(action);
      if name.None? {
        return;
      }
      var reaction := Classify(name.value);
      if reaction == Forget || replies.get.Err? {
        return;
      }
      var w := replies.get.value;
      var running: bool;
      match reaction {
        case IsRunning => running := true;
        case IsStopped => running := false;
        case QueryState =>
          if replies.running.Err? {
            return;
          }
          running := replies.running.value;
        case Unknown => return;
      }
      var addr := "";
      if running {
        if replies.ip.Err? {
          return;
        }
        addr := replies.ip.value;
      }
      steps := [GenerateConfig(w.userID, addr)];
      if replies.generate.Some? {
        return;
      }
      steps := steps + [AddAllPorts(w.userID, addr)];
      var _, _, _ := ports.AddAll(w.ports, addr, replies.listen, replies.k8s);
    }
  }

  // ---------------------------------------------------------------------------
  // Create

  /** The record a new webspace starts with. */
  function NewRecord(uid: int, s: W.Settings): (r: W.Record)
    ensures r.userID == uid && r.config == s.configDefaults && r.domains == [] && r.ports == map[]
  {
    W.Record(uid, s.configDefaults, [], map[])
  }

  /** The sshd installation command for an image's `os` property, by its value
      under Go's `strings.ToLower`; `None` for an OS the daemon does not know. */
  function SshdCommand(os: string): Option<string> {
    match LowerGo(os)
    case "alpine" => Some("apk update && apk add dropbear && rc-update add dropbear")
    case "archlinux" => Some("pacman -Sy --noconfirm openssh && systemctl enable sshd")
    case "ubuntu" => Some("apt-get -qy update && apt-get -qy install openssh-server")
    case "debian" => Some("apt-get -qy update && apt-get -qy install openssh-server")
    case "fedora" => Some("dnf install -qy openssh-server && systemctl enable sshd")
    case "centos" => Some("dnf install -qy openssh-server && systemctl enable sshd")
    case _ => None
  }

  /** Exactly six OS names have a command. */
  lemma SshdCommandKnown(os: string)
    ensures SshdCommand(os).Some? <==> LowerGo(os) in {"alpine", "archlinux", "ubuntu", "debian", "fedora", "centos"}
  {
  }

  /** The choice ignores letter case. */
  lemma SshdCommandIgnoresCase(os: string)
    ensures SshdCommand(LowerGo(os)) == SshdCommand(os)
  {
    assert LowerGo(LowerGo(os)) == LowerGo(os);
  }

  /** Go lower-cases beyond ASCII: an image whose `os` is "ALPİNE", with a capital
      I with dot above, gets the Alpine command. */
  lemma SshdCommandUnicode()
    ensures SshdCommand("ALP\U{0130}NE") == SshdCommand("alpine") == Some("apk update && apk add dropbear && rc-update add dropbear")
  {
    assert LowerGo("ALP\U{0130}NE") == "alpine";
    assert LowerGo("alpine") == "alpine";
  }

  function PasswordCommand(password: string): string {
    "echo \"root:" + password + "\" | chpasswd"
  }

  function StoreKeyCommand(sshKey: string): string {
    "mkdir -p /root/.ssh && echo \"" + sshKey + "\" > /root/.ssh/authorized_keys"
  }

  /** The side effects `Create` performs, in order. */
  datatype CreateStep<R> =
    | CreateInstance(name: string, record: R, fingerprint: string)
    | StartInstance
    | Exec(command: string)
    | AddSshForward
    | StopInstance

  /** The answers to `Create`'s calls: the image alias lookup, instance creation and
      its operation, starting, each command run, the image's `os` property, the
      implicit SSH forward and stopping. */
  datatype CreateReplies = CreateReplies(
    alias: Result<string, Error>, create: Option<Error>, wait: Option<Error>, start: Option<Error>,
    exec: string -> Option<Error>, os: Result<Option<string>, Error>, addPort: Option<Error>, stop: Option<Error>)

  /** `Create`. `isFingerprint` is the answer of `util.IsSHA256` on `image`. */
  method Create(s: W.Settings, uid: int, image: string, isFingerprint: bool, password: string, sshKey: string,
                replies: CreateReplies) returns (err: Option<Error>, steps: seq<CreateStep<W.Record>>)
    ensures steps != [] ==>
      (isFingerprint || replies.alias.Ok?) &&
      steps[0] == CreateInstance(InstanceName(s.instancePrefix, uid), NewRecord(uid, s),
                                 if isFingerprint then image else replies.alias.value)
    ensures s.configDefaults.startupDelay < 0.0 && (isFingerprint || replies.alias.Ok?) ==> err == Some(Root(BadValue)) && steps == []
    ensures password == "" && sshKey == "" ==> |steps| <= 1
    ensures StartInstance in steps ==> password != "" || sshKey != ""
    ensures AddSshForward in steps ==>
      sshKey != "" && replies.os.Ok? && replies.os.value.Some? && SshdCommand(replies.os.value.value).Some?
      && Exec(SshdCommand(replies.os.value.value).value) in steps && Exec(StoreKeyCommand(sshKey)) in steps
    ensures err.None? && sshKey != "" ==> replies.os.Ok?
    ensures err.None? && sshKey != "" && replies.os.Ok? && replies.os.value.Some? && SshdCommand(replies.os.value.value).Some?
      ==> AddSshForward in steps
    ensures sshKey != "" && replies.os.Ok? && replies.os.value.Some? && SshdCommand(replies.os.value.value).None?
      ==> AddSshForward !in steps && Exec(StoreKeyCommand(sshKey)) !in steps
    ensures err.None? ==> steps != [] && (password != "" || sshKey != "" ==> steps[|steps| - 1] == StopInstance)
  {
    steps := [];
    var fingerprint := image;
    if !isFingerprint {
      if replies.alias.Err? {
        return Some(Wrap("failed to get image alias: ", replies.alias.error)), steps;
      }
      fingerprint := replies.alias.value;
    }
    var record := NewRecord(uid, s);
    var conf := W.LxdConfig(record);
    if conf.Err? {
      return Some(conf.error), steps;
    }
    steps := [CreateInstance(InstanceName(s.instancePrefix, uid), record, fingerprint)];
    if replies.create.Some? {
      return Some(Wrap("failed to create LXD instance: ", ConvertLXDError(replies.create.value))), steps;
    }
    if replies.wait.Some? {
      return Some(Wrap("failed to create LXD instance: ", ConvertLXDError(replies.wait.value))), steps;
    }
    var osInfo := match replies.os case Err(e) => Err(ConvertLXDError(e)) case Ok(v) => Ok(v);
    var rest;
    err, rest := Provision(password, sshKey, replies.start, replies.exec, osInfo, replies.addPort, replies.stop);
    steps := steps + rest;
  }

  /** The part of `Create` after the instance exists, shared by both generations:
      boot it for a password or a key, set the password, install sshd for a known
      OS and store the key, forward SSH, and shut the instance down. `os` is the
      image's `os` property with LXD's error already converted. */
  method Provision<R>(password: string, sshKey: string, start: Option<Error>, exec: string -> Option<Error>,
                      os: Result<Option<string>, Error>, addPort: Option<Error>, stop: Option<Error>)
    returns (err: Option<Error>, steps: seq<CreateStep<R>>)
    ensures forall k :: 0 <= k < |steps| ==> !steps[k].CreateInstance?
    ensures password == "" && sshKey == "" ==> steps == [] && err.None?
    ensures StartInstance in steps ==> password != "" || sshKey != ""
    ensures AddSshForward in steps ==>
      sshKey != "" && os.Ok? && os.value.Some? && SshdCommand(os.value.value).Some?
      && Exec(SshdCommand(os.value.value).value) in steps && Exec(StoreKeyCommand(sshKey)) in steps
    ensures err.None? && sshKey != "" ==> os.Ok?
    ensures err.None? && sshKey != "" && os.Ok? && os.value.Some? && SshdCommand(os.value.value).Some?
      ==> AddSshForward in steps
    ensures sshKey != "" && os.Ok? && os.value.Some? && SshdCommand(os.value.value).None?
      ==> AddSshForward !in steps && Exec(StoreKeyCommand(sshKey)) !in steps
    ensures err.None? && (password != "" || sshKey != "") ==> steps != [] && steps[|steps| - 1] == StopInstance
  {
    steps := [];
    if password != "" || sshKey != "" {
      steps := steps + [StartInstance];
      if start.Some? {
        return start, steps;
      }
    }
    if password != "" {
      var cmd := PasswordCommand(password);
      assert cmd[0] != StoreKeyCommand(sshKey)[0];
      steps := steps + [Exec(cmd)];
      if exec(cmd).Some? {
        return Some(Wrap("failed to set root password: ", exec(cmd).value)), steps;
      }
    }
    if sshKey != "" {
      var keySteps;
      err, keySteps := InstallKey(sshKey, exec, os, addPort);
      steps := steps + keySteps;
      if err.Some? {
        return err, steps;
      }
    }
    if password != "" || sshKey != "" {
      steps := steps + [StopInstance];
      if stop.Some? {
        return stop, steps;
      }
    }
    return None, steps;
  }

  /** The key part of `Provision`: look at the image's OS, install sshd when the
      OS is known, store the key and forward SSH. */
  method InstallKey<R>(sshKey: string, exec: string -> Option<Error>, os: Result<Option<string>, Error>,
                       addPort: Option<Error>) returns (err: Option<Error>, steps: seq<CreateStep<R>>)
    ensures forall k :: 0 <= k < |steps| ==> steps[k].Exec? || steps[k] == AddSshForward
    ensures os.Err? ==> err == Some(Wrap("failed to retrieve LXD image info: ", os.error)) && steps == []
    ensures os.Ok? && (os.value.None? || SshdCommand(os.value.value).None?) ==> err.None? && steps == []
    ensures AddSshForward in steps ==>
      os.Ok? && os.value.Some? && SshdCommand(os.value.value).Some?
      && Exec(SshdCommand(os.value.value).value) in steps && Exec(StoreKeyCommand(sshKey)) in steps
    ensures err.None? && os.Ok? && os.value.Some? && SshdCommand(os.value.value).Some? ==> AddSshForward in steps
  {
    steps := [];
    if os.Err? {
      return Some(Wrap("failed to retrieve LXD image info: ", os.error)), steps;
    }
    if os.value.None? {
      return None, steps;
    }
    var install := SshdCommand(os.value.value);
    if install.None? {
      return None, steps;
    }
    steps := [Exec(install.value)];
    if exec(install.value).Some? {
      return Some(Wrap("failed to install sshd: ", exec(install.value).value)), steps;
    }
    var store := StoreKeyCommand(sshKey);
    steps := steps + [Exec(store)];
    if exec(store).Some? {
      return Some(Wrap("failed to store ssh public key: ", exec(store).value)), steps;
    }
    steps := steps + [AddSshForward];
    if addPort.Some? {
      return Some(Wrap("failed to add SSH port forward: ", addPort.value)), steps;
    }
    return None, steps;
  }
}
