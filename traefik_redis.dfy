/** Traefik routing configuration kept in Redis (internal/webspace/traefik_redis.go).
    `ClearConfig` deletes a fixed set of keys of an instance plus two per default
    SAN; `GenerateConfig` writes the keys that route a webspace's domains to it,
    or to the boot middleware while it is stopped. Both run as one Redis
    transaction: when the transaction fails, nothing is applied. */
module TraefikRedis {
  import opened Util
  import opened Errors
  import W = Webspace
  import M = Manager

  // ---------------------------------------------------------------------------
  // Keys

  datatype Proto = Http | Tcp

  datatype Section = Services | Middlewares | Routers

  /** Which object of an instance a key belongs to: the instance's own, its boot
      middleware (`<n>-boot`) or its HTTPS router (`<n>-https`). */
  datatype Role = Main | Boot | Https

  /** The part of a key after the object's name. */
  datatype Path =
    | ServerURL | PassHostHeader | ServerAddress
    | BootURL | BootIAMToken | BootUserID
    | SNIBootURL | SNIBootIAMToken | SNIBootUserID
    | Middleware | Service | Rule | EntryPoint
    | TLS | TLSMain | CertResolver | SAN(index: nat) | Passthrough

  /** A Redis key `traefik/<proto>/<section>/<instance><role><path>`, kept in its
      parts. */
  datatype RedisKey = RedisKey(proto: Proto, section: Section, instance: string, role: Role, path: Path)

  function ProtoText(p: Proto): string {
    match p
    case Http => "http"
    case Tcp => "tcp"
  }

  function SectionText(s: Section): string {
    match s
    case Services => "services"
    case Middlewares => "middlewares"
    case Routers => "routers"
  }

  function RoleText(r: Role): string {
    match r
    case Main => ""
    case Boot => "-boot"
    case Https => "-https"
  }

  function PathText(p: Path): string {
    match p
    case ServerURL => "/loadbalancer/servers/0/url"
    case PassHostHeader => "/loadbalancer/passhostheader"
    case ServerAddress => "/loadbalancer/servers/0/address"
    case BootURL => "/webspaceBoot/url"
    case BootIAMToken => "/webspaceBoot/iamToken"
    case BootUserID => "/webspaceBoot/userID"
    case SNIBootURL => "/webspaceboot/url"
    case SNIBootIAMToken => "/webspaceboot/iamToken"
    case SNIBootUserID => "/webspaceboot/userID"
    case Middleware => "/middlewares/0"
    case Service => "/service"
    case Rule => "/rule"
    case EntryPoint => "/entrypoints/0"
    case TLS => "/tls"
    case TLSMain => "/tls/domains/0/main"
    case CertResolver => "/tls/certresolver"
    case SAN(i) => "/tls/domains/0/sans/" + DecimalString(i)
    case Passthrough => "/tls/passthrough"
  }

  /** The key as Redis stores it. */
  function KeyText(k: RedisKey): string {
    "traefik/" + ProtoText(k.proto) + "/" + SectionText(k.section) + "/" + k.instance + RoleText(k.role) + PathText(k.path)
  }

  function Router(p: Proto, n: string, role: Role, path: Path): RedisKey {
    RedisKey(p, Routers, n, role, path)
  }

  /** `traefik/<proto>/routers/<n>-https/tls/domains/0/sans/<i>`. */
  function SanKey(p: Proto, n: string, i: nat): RedisKey {
    Router(p, n, Https, SAN(i))
  }

  /** The keys `ClearConfig` deletes whatever the configuration. */
  function FixedClearKeys(n: string): set<RedisKey> {
    {
      RedisKey(Http, Services, n, Main, ServerURL),
      RedisKey(Http, Services, n, Main, PassHostHeader),

      RedisKey(Http, Middlewares, n, Boot, BootURL),
      RedisKey(Http, Middlewares, n, Boot, BootIAMToken),
      RedisKey(Http, Middlewares, n, Boot, BootUserID),
      Router(Http, n, Main, Middleware),

      Router(Http, n, Main, Service),
      Router(Http, n, Main, Rule),
      Router(Http, n, Main, EntryPoint),

      Router(Http, n, Https, Service),
      Router(Http, n, Https, Rule),
      Router(Http, n, Https, EntryPoint),
      Router(Http, n, Https, Middleware),

      Router(Http, n, Https, TLS),
      Router(Http, n, Https, TLSMain),
      Router(Http, n, Https, CertResolver),

      RedisKey(Tcp, Services, n, Main, ServerAddress),

      Router(Tcp, n, Https, Service),
      Router(Tcp, n, Https, Rule),
      Router(Tcp, n, Https, EntryPoint),

      Router(Tcp, n, Https, TLS),
      Router(Tcp, n, Https, TLSMain),
      Router(Tcp, n, Https, CertResolver),
      Router(Tcp, n, Https, Passthrough),

      Router(Tcp, n, Https, SNIBootURL),
      Router(Tcp, n, Https, SNIBootIAMToken),
      Router(Tcp, n, Https, SNIBootUserID)
    }
  }

  /** Entry `k` of the SAN key list: the HTTP key of SAN `k / 2` at even `k`, the
      TCP key at odd `k`. */
  function SanClearKey(n: string, k: nat): RedisKey {
    SanKey(if k % 2 == 0 then Http else Tcp, n, k / 2)
  }

  /** The SAN keys `ClearConfig` deletes: both protocols' for each of `sans`
      default SANs. */
  function SanClearKeys(n: string, sans: nat): set<RedisKey> {
    set k | 0 <= k < 2 * sans :: SanClearKey(n, k)
  }

  /** Every key `ClearConfig` deletes for instance `n` with `sans` default SANs. */
  function ClearKeys(n: string, sans: nat): set<RedisKey> {
    FixedClearKeys(n) + SanClearKeys(n, sans)
  }

  // ---------------------------------------------------------------------------
  // What GenerateConfig writes

  /** The Traefik section of the daemon configuration. */
  datatype TraefikSettings = TraefikSettings(
    httpsEntryPoint: string, certResolver: string, defaultSANs: seq<string>,
    webspacedURL: string, iamToken: string)

  /** One router matcher per domain, e.g. ``Host(`d`)``. */
  function Rules(matcher: string, domains: seq<string>): (r: seq<string>)
    ensures |r| == |domains|
    ensures forall i :: 0 <= i < |domains| ==> r[i] == matcher + "(`" + domains[i] + "`)"
  {
    if domains == [] then []
    else Rules(matcher, domains[..|domains| - 1]) + [matcher + "(`" + domains[|domains| - 1] + "`)"]
  }

  /** A rule matches any of its domains, in order. */
  function RuleOf(matcher: string, domains: seq<string>): string {
    Join(Rules(matcher, domains), " || ")
  }

  lemma {:induction false} RulesCons(matcher: string, d: string, ds: seq<string>)
    ensures Rules(matcher, [d] + ds) == [matcher + "(`" + d + "`)"] + Rules(matcher, ds)
    decreases |ds|
  {
    if ds != [] {
      var init := ds[..|ds| - 1];
      assert ([d] + ds)[..|ds|] == [d] + init;
      RulesCons(matcher, d, init);
    }
  }

  /** The rule over `[d] + ds` is `d`'s matcher followed by the rule over `ds`. */
  lemma RuleOfCons(matcher: string, d: string, ds: seq<string>)
    ensures RuleOf(matcher, [d] + ds)
            == matcher + "(`" + d + "`)" + (if ds == [] then "" else " || " + RuleOf(matcher, ds))
  {
    var head := [matcher + "(`" + d + "`)"];
    RulesCons(matcher, d, ds);
    if ds != [] {
      JoinConcat(head, Rules(matcher, ds), " || ");
    }
  }

  /** The backend service: the instance's HTTP port when it runs, otherwise the
      boot middleware that starts it. */
  function WithService(m: map<RedisKey, string>, ts: TraefikSettings, n: string, rec: W.Record, addr: string)
    : map<RedisKey, string>
  {
    if addr != "" then
      m[RedisKey(Http, Services, n, Main, ServerURL) := "http://" + addr + ":" + DecimalString(rec.config.httpPort)]
    else
      m[RedisKey(Http, Services, n, Main, PassHostHeader) := "1"]
       [RedisKey(Http, Middlewares, n, Boot, BootURL) := ts.webspacedURL]
       [RedisKey(Http, Middlewares, n, Boot, BootIAMToken) := ts.iamToken]
       [RedisKey(Http, Middlewares, n, Boot, BootUserID) := IntString(rec.userID)]
       [Router(Http, n, Main, Middleware) := n + "-boot"]
  }

  /** The plain router over all the webspace's domains. */
  function WithRouter(m: map<RedisKey, string>, ts: TraefikSettings, n: string, rule: string): map<RedisKey, string> {
    m[Router(Http, n, Main, Service) := n]
     [Router(Http, n, Main, Rule) := rule]
     [Router(Http, n, Main, EntryPoint) := ts.httpsEntryPoint]
  }

  /** TLS terminated by Traefik: only the default domain is routed. */
  function WithTermination(m: map<RedisKey, string>, n: string, username: string, domain: string, addr: string)
    : map<RedisKey, string>
  {
    var m' := m[Router(Http, n, Https, Service) := n]
               [Router(Http, n, Https, Rule) := "Host(`" + username + "." + domain + "`)"];
    if addr == "" then m'[Router(Http, n, Https, Middleware) := n + "-boot"] else m'
  }

  /** TLS passed through to the instance, routed by SNI over all domains. */
  function WithPassthrough(m: map<RedisKey, string>, ts: TraefikSettings, n: string, rec: W.Record, addr: string,
                           sniRule: string): map<RedisKey, string>
  {
    var m' :=
      if addr != "" then
        m[RedisKey(Tcp, Services, n, Main, ServerAddress) := addr + ":" + DecimalString(rec.config.httpPort)]
         [Router(Tcp, n, Https, Service) := n]
      else
        m[Router(Tcp, n, Https, SNIBootURL) := ts.webspacedURL]
         [Router(Tcp, n, Https, SNIBootIAMToken) := ts.iamToken]
         [Router(Tcp, n, Https, SNIBootUserID) := IntString(rec.userID)];
    m'[Router(Tcp, n, Https, Rule) := sniRule][Router(Tcp, n, Https, Passthrough) := "true"]
  }

  /** `k` is the key of one of the first `count` SANs of instance `n`'s HTTPS
      router under `p`. */
  predicate IsSan(p: Proto, n: string, count: nat, k: RedisKey) {
    k.proto == p && k.section == Routers && k.instance == n && k.role == Https && k.path.SAN? && k.path.index < count
  }

  /** One key per default SAN, by index. */
  function WithSans(m: map<RedisKey, string>, p: Proto, n: string, sans: seq<string>): (r: map<RedisKey, string>)
    ensures forall k :: k in r <==> k in m || IsSan(p, n, |sans|, k)
    ensures forall k :: k in m && !IsSan(p, n, |sans|, k) ==> r[k] == m[k]
    ensures forall i :: 0 <= i < |sans| ==> IsSan(p, n, |sans|, SanKey(p, n, i)) && r[SanKey(p, n, i)] == sans[i]
  {
    if sans == [] then m
    else WithSans(m, p, n, sans[..|sans| - 1])[SanKey(p, n, |sans| - 1) := sans[|sans| - 1]]
  }

  /** The HTTPS router's entry point and TLS settings, SANs last. */
  function WithTls(m: map<RedisKey, string>, ts: TraefikSettings, p: Proto, n: string, domain: string)
    : map<RedisKey, string>
  {
    var m' := m[Router(p, n, Https, EntryPoint) := ts.httpsEntryPoint]
               [Router(p, n, Https, TLS) := "true"]
               [Router(p, n, Https, TLSMain) := "*." + domain];
    var m'' := if ts.certResolver != "" then m'[Router(p, n, Https, CertResolver) := ts.certResolver] else m';
    WithSans(m'', p, n, ts.defaultSANs)
  }

  /** The HTTPS router lives under `traefik/tcp` with SNI passthrough, under
      `traefik/http` otherwise. */
  function SecureProto(rec: W.Record): Proto {
    if rec.config.sniPassthrough then Tcp else Http
  }

  /** The routing `GenerateConfig` writes before the TLS settings: service,
      plain router and the HTTPS router's routing, with the rules already built. */
  function Routes(ts: TraefikSettings, domain: string, n: string, rec: W.Record, username: string,
                  rule: string, sniRule: string, addr: string): map<RedisKey, string>
  {
    var m := WithRouter(WithService(map[], ts, n, rec, addr), ts, n, rule);
    if rec.config.sniPassthrough then WithPassthrough(m, ts, n, rec, addr, sniRule)
    else WithTermination(m, n, username, domain, addr)
  }

  /** Everything `GenerateConfig` writes for instance `n` of webspace `rec`,
      owned by `username`, with domains `domains` (default first) and address
      `addr` ("" while the instance is stopped). */
  function Written(ts: TraefikSettings, domain: string, n: string, rec: W.Record, username: string,
                   domains: seq<string>, addr: string): map<RedisKey, string>
  {
    WithTls(Routes(ts, domain, n, rec, username, RuleOf("Host", domains), RuleOf("HostSNI", domains), addr),
            ts, SecureProto(rec), n, domain)
  }

  /** The keys the TLS part writes: the HTTPS router's entry point, TLS settings
      and SANs. */
  predicate TlsKey(p: Proto, k: RedisKey) {
    k.proto == p && k.section == Routers && k.role == Https
    && (k.path in {EntryPoint, TLS, TLSMain, CertResolver} || k.path.SAN?)
  }

  /** The TLS part touches only the TLS settings of its own protocol. */
  lemma TlsFrame(m: map<RedisKey, string>, ts: TraefikSettings, p: Proto, n: string, domain: string, k: RedisKey)
    requires !TlsKey(p, k)
    ensures k in WithTls(m, ts, p, n, domain) <==> k in m
    ensures k in m ==> WithTls(m, ts, p, n, domain)[k] == m[k]
  {
  }

  // Each fact about what is written is proved on the routing first, then carried
  // through the TLS part, which touches none of the keys involved.

  lemma RoutesRouter(ts: TraefikSettings, domain: string, n: string, rec: W.Record, username: string,
                    rule: string, sniRule: string, addr: string)
    ensures var m := Routes(ts, domain, n, rec, username, rule, sniRule, addr);
      Router(Http, n, Main, Rule) in m && m[Router(Http, n, Main, Rule)] == rule &&
      Router(Http, n, Main, Service) in m && m[Router(Http, n, Main, Service)] == n &&
      Router(Http, n, Main, EntryPoint) in m && m[Router(Http, n, Main, EntryPoint)] == ts.httpsEntryPoint
  {
  }

  /** The plain router matches every domain and leads to the instance's service. */
  lemma WrittenRouter(ts: TraefikSettings, domain: string, n: string, rec: W.Record, username: string,
                      domains: seq<string>, addr: string)
    ensures var m := Written(ts, domain, n, rec, username, domains, addr);
      Router(Http, n, Main, Rule) in m && m[Router(Http, n, Main, Rule)] == RuleOf("Host", domains) &&
      Router(Http, n, Main, Service) in m && m[Router(Http, n, Main, Service)] == n &&
      Router(Http, n, Main, EntryPoint) in m && m[Router(Http, n, Main, EntryPoint)] == ts.httpsEntryPoint
  {
    RoutesRouter(ts, domain, n, rec, username, RuleOf("Host", domains), RuleOf("HostSNI", domains), addr);
    var b := Routes(ts, domain, n, rec, username, RuleOf("Host", domains), RuleOf("HostSNI", domains), addr);
    TlsFrame(b, ts, SecureProto(rec), n, domain, Router(Http, n, Main, Rule));
    TlsFrame(b, ts, SecureProto(rec), n, domain, Router(Http, n, Main, Service));
    TlsFrame(b, ts, SecureProto(rec), n, domain, Router(Http, n, Main, EntryPoint));
  }

  lemma RoutesRunning(ts: TraefikSettings, domain: string, n: string, rec: W.Record, username: string,
                    rule: string, sniRule: string, addr: string)
    requires addr != ""
    ensures var m := Routes(ts, domain, n, rec, username, rule, sniRule, addr);
      RedisKey(Http, Services, n, Main, ServerURL) in m &&
      m[RedisKey(Http, Services, n, Main, ServerURL)] == "http://" + addr + ":" + DecimalString(rec.config.httpPort) &&
      RedisKey(Http, Services, n, Main, PassHostHeader) !in m &&
      RedisKey(Http, Middlewares, n, Boot, BootURL) !in m &&
      Router(Http, n, Main, Middleware) !in m &&
      Router(Http, n, Https, Middleware) !in m &&
      Router(Tcp, n, Https, SNIBootURL) !in m
  {
  }

  /** A running instance is reached at its address and port, with no boot middleware. */
  lemma WrittenRunning(ts: TraefikSettings, domain: string, n: string, rec: W.Record, username: string,
                      domains: seq<string>, addr: string)
    requires addr != ""
    ensures var m := Written(ts, domain, n, rec, username, domains, addr);
      RedisKey(Http, Services, n, Main, ServerURL) in m &&
      m[RedisKey(Http, Services, n, Main, ServerURL)] == "http://" + addr + ":" + DecimalString(rec.config.httpPort) &&
      RedisKey(Http, Services, n, Main, PassHostHeader) !in m &&
      RedisKey(Http, Middlewares, n, Boot, BootURL) !in m &&
      Router(Http, n, Main, Middleware) !in m &&
      Router(Http, n, Https, Middleware) !in m &&
      Router(Tcp, n, Https, SNIBootURL) !in m
  {
    RoutesRunning(ts, domain, n, rec, username, RuleOf("Host", domains), RuleOf("HostSNI", domains), addr);
    var b := Routes(ts, domain, n, rec, username, RuleOf("Host", domains), RuleOf("HostSNI", domains), addr);
    TlsFrame(b, ts, SecureProto(rec), n, domain, RedisKey(Http, Services, n, Main, ServerURL));
    TlsFrame(b, ts, SecureProto(rec), n, domain, RedisKey(Http, Services, n, Main, PassHostHeader));
    TlsFrame(b, ts, SecureProto(rec), n, domain, RedisKey(Http, Middlewares, n, Boot, BootURL));
    TlsFrame(b, ts, SecureProto(rec), n, domain, Router(Http, n, Main, Middleware));
    TlsFrame(b, ts, SecureProto(rec), n, domain, Router(Http, n, Https, Middleware));
    TlsFrame(b, ts, SecureProto(rec), n, domain, Router(Tcp, n, Https, SNIBootURL));
  }

  lemma RoutesStopped(ts: TraefikSettings, domain: string, n: string, rec: W.Record, username: string,
                      rule: string, sniRule: string)
    ensures var m := Routes(ts, domain, n, rec, username, rule, sniRule, "");
      RedisKey(Http, Services, n, Main, PassHostHeader) in m &&
      m[RedisKey(Http, Services, n, Main, PassHostHeader)] == "1" &&
      Router(Http, n, Main, Middleware) in m && m[Router(Http, n, Main, Middleware)] == n + "-boot" &&
      RedisKey(Http, Services, n, Main, ServerURL) !in m
  {
  }

  lemma RoutesBoot(ts: TraefikSettings, domain: string, n: string, rec: W.Record, username: string,
                   rule: string, sniRule: string)
    ensures var m := Routes(ts, domain, n, rec, username, rule, sniRule, "");
      RedisKey(Http, Middlewares, n, Boot, BootURL) in m &&
      m[RedisKey(Http, Middlewares, n, Boot, BootURL)] == ts.webspacedURL &&
      RedisKey(Http, Middlewares, n, Boot, BootIAMToken) in m &&
      m[RedisKey(Http, Middlewares, n, Boot, BootIAMToken)] == ts.iamToken &&
      RedisKey(Http, Middlewares, n, Boot, BootUserID) in m &&
      m[RedisKey(Http, Middlewares, n, Boot, BootUserID)] == IntString(rec.userID)
  {
  }

  /** A stopped instance is routed through the boot middleware, which carries the
      daemon's URL, token and the webspace's owner. */
  lemma WrittenStopped(ts: TraefikSettings, domain: string, n: string, rec: W.Record, username: string,
                       domains: seq<string>)
    ensures var m := Written(ts, domain, n, rec, username, domains, "");
      RedisKey(Http, Services, n, Main, PassHostHeader) in m &&
      m[RedisKey(Http, Services, n, Main, PassHostHeader)] == "1" &&
      RedisKey(Http, Middlewares, n, Boot, BootURL) in m &&
      m[RedisKey(Http, Middlewares, n, Boot, BootURL)] == ts.webspacedURL &&
      RedisKey(Http, Middlewares, n, Boot, BootIAMToken) in m &&
      m[RedisKey(Http, Middlewares, n, Boot, BootIAMToken)] == ts.iamToken &&
      RedisKey(Http, Middlewares, n, Boot, BootUserID) in m &&
      m[RedisKey(Http, Middlewares, n, Boot, BootUserID)] == IntString(rec.userID) &&
      Router(Http, n, Main, Middleware) in m && m[Router(Http, n, Main, Middleware)] == n + "-boot" &&
      RedisKey(Http, Services, n, Main, ServerURL) !in m
  {
    RoutesStopped(ts, domain, n, rec, username, RuleOf("Host", domains), RuleOf("HostSNI", domains));
    RoutesBoot(ts, domain, n, rec, username, RuleOf("Host", domains), RuleOf("HostSNI", domains));
    var b := Routes(ts, domain, n, rec, username, RuleOf("Host", domains), RuleOf("HostSNI", domains), "");
    TlsFrame(b, ts, SecureProto(rec), n, domain, RedisKey(Http, Services, n, Main, PassHostHeader));
    TlsFrame(b, ts, SecureProto(rec), n, domain, RedisKey(Http, Middlewares, n, Boot, BootURL));
    TlsFrame(b, ts, SecureProto(rec), n, domain, RedisKey(Http, Middlewares, n, Boot, BootIAMToken));
    TlsFrame(b, ts, SecureProto(rec), n, domain, RedisKey(Http, Middlewares, n, Boot, BootUserID));
    TlsFrame(b, ts, SecureProto(rec), n, domain, Router(Http, n, Main, Middleware));
    TlsFrame(b, ts, SecureProto(rec), n, domain, RedisKey(Http, Services, n, Main, ServerURL));
  }

  lemma RoutesTermination(ts: TraefikSettings, domain: string, n: string, rec: W.Record, username: string,
                    rule: string, sniRule: string, addr: string)
    requires !rec.config.sniPassthrough
    ensures var m := Routes(ts, domain, n, rec, username, rule, sniRule, addr);
      Router(Http, n, Https, Rule) in m && m[Router(Http, n, Https, Rule)] == "Host(`" + username + "." + domain + "`)" &&
      Router(Http, n, Https, Service) in m && m[Router(Http, n, Https, Service)] == n &&
      (Router(Http, n, Https, Middleware) in m <==> addr == "") &&
      Router(Tcp, n, Https, Rule) !in m && Router(Tcp, n, Https, Passthrough) !in m
  {
  }

  /** Without passthrough, Traefik terminates TLS and the HTTPS router serves the
      owner's default domain only. */
  lemma WrittenTermination(ts: TraefikSettings, domain: string, n: string, rec: W.Record, username: string,
                      domains: seq<string>, addr: string)
    requires !rec.config.sniPassthrough
    ensures var m := Written(ts, domain, n, rec, username, domains, addr);
      Router(Http, n, Https, Rule) in m && m[Router(Http, n, Https, Rule)] == "Host(`" + username + "." + domain + "`)" &&
      Router(Http, n, Https, Service) in m && m[Router(Http, n, Https, Service)] == n &&
      (Router(Http, n, Https, Middleware) in m <==> addr == "") &&
      Router(Tcp, n, Https, Rule) !in m && Router(Tcp, n, Https, Passthrough) !in m
  {
    RoutesTermination(ts, domain, n, rec, username, RuleOf("Host", domains), RuleOf("HostSNI", domains), addr);
    var b := Routes(ts, domain, n, rec, username, RuleOf("Host", domains), RuleOf("HostSNI", domains), addr);
    TlsFrame(b, ts, SecureProto(rec), n, domain, Router(Http, n, Https, Rule));
    TlsFrame(b, ts, SecureProto(rec), n, domain, Router(Http, n, Https, Service));
    TlsFrame(b, ts, SecureProto(rec), n, domain, Router(Http, n, Https, Middleware));
    TlsFrame(b, ts, SecureProto(rec), n, domain, Router(Tcp, n, Https, Rule));
    TlsFrame(b, ts, SecureProto(rec), n, domain, Router(Tcp, n, Https, Passthrough));
  }

  lemma RoutesPassthrough(ts: TraefikSettings, domain: string, n: string, rec: W.Record, username: string,
                    rule: string, sniRule: string, addr: string)
    requires rec.config.sniPassthrough
    ensures var m := Routes(ts, domain, n, rec, username, rule, sniRule, addr);
      Router(Tcp, n, Https, Rule) in m && m[Router(Tcp, n, Https, Rule)] == sniRule &&
      Router(Tcp, n, Https, Passthrough) in m && m[Router(Tcp, n, Https, Passthrough)] == "true" &&
      Router(Http, n, Https, Rule) !in m && Router(Http, n, Https, TLS) !in m &&
      (addr != "" ==> RedisKey(Tcp, Services, n, Main, ServerAddress) in m &&
                      m[RedisKey(Tcp, Services, n, Main, ServerAddress)] == addr + ":" + DecimalString(rec.config.httpPort)) &&
      (addr == "" ==> Router(Tcp, n, Https, SNIBootURL) in m && m[Router(Tcp, n, Https, SNIBootURL)] == ts.webspacedURL)
  {
  }

  /** With passthrough, the TCP router matches every domain by SNI and passes TLS
      on; no HTTP HTTPS router is written. */
  lemma WrittenPassthrough(ts: TraefikSettings, domain: string, n: string, rec: W.Record, username: string,
                      domains: seq<string>, addr: string)
    requires rec.config.sniPassthrough
    ensures var m := Written(ts, domain, n, rec, username, domains, addr);
      Router(Tcp, n, Https, Rule) in m && m[Router(Tcp, n, Https, Rule)] == RuleOf("HostSNI", domains) &&
      Router(Tcp, n, Https, Passthrough) in m && m[Router(Tcp, n, Https, Passthrough)] == "true" &&
      Router(Http, n, Https, Rule) !in m && Router(Http, n, Https, TLS) !in m &&
      (addr != "" ==> RedisKey(Tcp, Services, n, Main, ServerAddress) in m &&
                      m[RedisKey(Tcp, Services, n, Main, ServerAddress)] == addr + ":" + DecimalString(rec.config.httpPort)) &&
      (addr == "" ==> Router(Tcp, n, Https, SNIBootURL) in m && m[Router(Tcp, n, Https, SNIBootURL)] == ts.webspacedURL)
  {
    RoutesPassthrough(ts, domain, n, rec, username, RuleOf("Host", domains), RuleOf("HostSNI", domains), addr);
    var b := Routes(ts, domain, n, rec, username, RuleOf("Host", domains), RuleOf("HostSNI", domains), addr);
    TlsFrame(b, ts, Tcp, n, domain, Router(Tcp, n, Https, Rule));
    TlsFrame(b, ts, Tcp, n, domain, Router(Tcp, n, Https, Passthrough));
    TlsFrame(b, ts, Tcp, n, domain, Router(Http, n, Https, Rule));
    TlsFrame(b, ts, Tcp, n, domain, Router(Http, n, Https, TLS));
    TlsFrame(b, ts, Tcp, n, domain, RedisKey(Tcp, Services, n, Main, ServerAddress));
    TlsFrame(b, ts, Tcp, n, domain, Router(Tcp, n, Https, SNIBootURL));
  }

  /** The HTTPS router of the protocol in use gets TLS for the wildcard of the
      base domain, the certificate resolver when one is configured and every
      default SAN by index. */
  lemma TlsWrites(m: map<RedisKey, string>, ts: TraefikSettings, p: Proto, n: string, domain: string)
    ensures var r := WithTls(m, ts, p, n, domain);
      Router(p, n, Https, EntryPoint) in r && r[Router(p, n, Https, EntryPoint)] == ts.httpsEntryPoint &&
      Router(p, n, Https, TLS) in r && r[Router(p, n, Https, TLS)] == "true" &&
      Router(p, n, Https, TLSMain) in r && r[Router(p, n, Https, TLSMain)] == "*." + domain &&
      (Router(p, n, Https, CertResolver) in r <==> ts.certResolver != "" || Router(p, n, Https, CertResolver) in m) &&
      (ts.certResolver != "" ==> r[Router(p, n, Https, CertResolver)] == ts.certResolver) &&
      forall i :: 0 <= i < |ts.defaultSANs| ==> SanKey(p, n, i) in r && r[SanKey(p, n, i)] == ts.defaultSANs[i]
  {
  }

  /** The routing never writes a TLS setting. */
  lemma RoutesNoTls(ts: TraefikSettings, domain: string, n: string, rec: W.Record, username: string,
                    rule: string, sniRule: string, addr: string, k: RedisKey)
    requires TlsKey(SecureProto(rec), k)
    ensures k !in Routes(ts, domain, n, rec, username, rule, sniRule, addr)
  {
  }

  /** The HTTPS router in use gets its TLS settings; the certificate resolver only
      when one is configured. */
  lemma WrittenTls(ts: TraefikSettings, domain: string, n: string, rec: W.Record, username: string,
                      domains: seq<string>, addr: string)
    ensures var m := Written(ts, domain, n, rec, username, domains, addr);
      var p := SecureProto(rec);
      Router(p, n, Https, TLS) in m && m[Router(p, n, Https, TLS)] == "true" &&
      Router(p, n, Https, TLSMain) in m && m[Router(p, n, Https, TLSMain)] == "*." + domain &&
      (Router(p, n, Https, CertResolver) in m <==> ts.certResolver != "") &&
      forall i :: 0 <= i < |ts.defaultSANs| ==> SanKey(p, n, i) in m && m[SanKey(p, n, i)] == ts.defaultSANs[i]
  {
    var b := Routes(ts, domain, n, rec, username, RuleOf("Host", domains), RuleOf("HostSNI", domains), addr);
    TlsWrites(b, ts, SecureProto(rec), n, domain);
    RoutesNoTls(ts, domain, n, rec, username, RuleOf("Host", domains), RuleOf("HostSNI", domains), addr,
                Router(SecureProto(rec), n, Https, CertResolver));
  }

  /** Each part of the writes adds only keys `ClearConfig` deletes. */
  lemma PartKeys(ts: TraefikSettings, domain: string, n: string, rec: W.Record, username: string, rule: string,
                 sniRule: string, addr: string, m: map<RedisKey, string>)
    ensures WithService(m, ts, n, rec, addr).Keys <= m.Keys + FixedClearKeys(n)
    ensures WithRouter(m, ts, n, rule).Keys <= m.Keys + FixedClearKeys(n)
    ensures WithTermination(m, n, username, domain, addr).Keys <= m.Keys + FixedClearKeys(n)
    ensures WithPassthrough(m, ts, n, rec, addr, sniRule).Keys <= m.Keys + FixedClearKeys(n)
  {
  }

  lemma SanKeysCleared(m: map<RedisKey, string>, p: Proto, n: string, sans: seq<string>)
    ensures WithSans(m, p, n, sans).Keys <= m.Keys + SanClearKeys(n, |sans|)
  {
    forall k | k in WithSans(m, p, n, sans) && k !in m
      ensures k in SanClearKeys(n, |sans|)
    {
      var i := k.path.index;
      SanClearKeyAt(n, i);
      var j := if p == Http then 2 * i else 2 * i + 1;
      assert 0 <= j < 2 * |sans| && SanClearKey(n, j) == k;
    }
  }

  lemma SanClearKeyAt(n: string, i: nat)
    ensures SanClearKey(n, 2 * i) == SanKey(Http, n, i)
    ensures SanClearKey(n, 2 * i + 1) == SanKey(Tcp, n, i)
  {
  }

  lemma TlsKeys(m: map<RedisKey, string>, ts: TraefikSettings, p: Proto, n: string, domain: string)
    ensures WithTls(m, ts, p, n, domain).Keys <= m.Keys + ClearKeys(n, |ts.defaultSANs|)
  {
    var m' := m[Router(p, n, Https, EntryPoint) := ts.httpsEntryPoint]
               [Router(p, n, Https, TLS) := "true"]
               [Router(p, n, Https, TLSMain) := "*." + domain];
    var m'' := if ts.certResolver != "" then m'[Router(p, n, Https, CertResolver) := ts.certResolver] else m';
    assert m''.Keys <= m.Keys + FixedClearKeys(n);
    SanKeysCleared(m'', p, n, ts.defaultSANs);
  }

  /** Every key `GenerateConfig` can write is one `ClearConfig` deletes, so clearing
      and regenerating an instance leaves exactly the new keys behind. */
  lemma ClearCoversGenerate(ts: TraefikSettings, domain: string, n: string, rec: W.Record,
                            username: string, domains: seq<string>, addr: string)
    ensures Written(ts, domain, n, rec, username, domains, addr).Keys <= ClearKeys(n, |ts.defaultSANs|)
  {
    var rule := RuleOf("Host", domains);
    var sniRule := RuleOf("HostSNI", domains);
    var m0: map<RedisKey, string> := map[];
    PartKeys(ts, domain, n, rec, username, rule, sniRule, addr, m0);
    var m1 := WithService(m0, ts, n, rec, addr);
    PartKeys(ts, domain, n, rec, username, rule, sniRule, addr, m1);
    var m := WithRouter(m1, ts, n, rule);
    PartKeys(ts, domain, n, rec, username, rule, sniRule, addr, m);
    var m' := if rec.config.sniPassthrough then WithPassthrough(m, ts, n, rec, addr, sniRule)
              else WithTermination(m, n, username, domain, addr);
    TlsKeys(m', ts, SecureProto(rec), n, domain);
  }

  lemma ClearThenWrite(kv: map<RedisKey, string>, cleared: set<RedisKey>, written: map<RedisKey, string>)
    requires written.Keys <= cleared
    ensures forall k :: k in cleared ==> (k in (kv - cleared) + written <==> k in written)
    ensures forall k :: k in written ==> ((kv - cleared) + written)[k] == written[k]
    ensures forall k :: k !in cleared ==> (k in (kv - cleared) + written <==> k in kv)
    ensures forall k :: k !in cleared && k in kv ==> ((kv - cleared) + written)[k] == kv[k]
  {
  }

  /** The event handler clears an instance's keys and then regenerates them: the
      instance's keys then hold exactly what was written, whatever an earlier
      configuration left behind, and every other key is untouched. */
  lemma ClearThenRegenerate(kv: map<RedisKey, string>, ts: TraefikSettings, domain: string, n: string,
                            rec: W.Record, username: string, domains: seq<string>, addr: string)
    ensures var cleared := ClearKeys(n, |ts.defaultSANs|);
      var written := Written(ts, domain, n, rec, username, domains, addr);
      var after := (kv - cleared) + written;
      (forall k :: k in cleared ==> (k in after <==> k in written)) &&
      (forall k :: k in written ==> after[k] == written[k]) &&
      (forall k :: k !in cleared ==> (k in after <==> k in kv)) &&
      (forall k :: k !in cleared && k in kv ==> after[k] == kv[k])
  {
    ClearCoversGenerate(ts, domain, n, rec, username, domains, addr);
    ClearThenWrite(kv, ClearKeys(n, |ts.defaultSANs|), Written(ts, domain, n, rec, username, domains, addr));
  }

  // ---------------------------------------------------------------------------
  // The store and the provider

  /** The Redis database, key by key. */
  class RedisClient {
    var kv: map<RedisKey, string>

    constructor ()
      ensures kv == map[]
    {
      kv := map[];
    }
  }

  /** Build a rule the way the source does: fill the matcher list, then join it. */
  method JoinRules(matcher: string, domains: seq<string>) returns (rule: string)
    ensures rule == RuleOf(matcher, domains)
  {
    var rules: seq<string> := [];
    for i := 0 to |domains|
      invariant rules == Rules(matcher, domains[..i])
    {
      assert domains[..i + 1][..i] == domains[..i];
      rules := rules + [matcher + "(`" + domains[i] + "`)"];
    }
    assert domains[..|domains|] == domains;
    rule := Join(rules, " || ");
  }

  class TraefikRedis {
    const ts: TraefikSettings
    const s: W.Settings
    const redis: RedisClient

    constructor (ts: TraefikSettings, s: W.Settings, redis: RedisClient)
      ensures this.ts == ts && this.s == s && this.redis == redis
    {
      this.ts := ts;
      this.s := s;
      this.redis := redis;
    }

    /** `ClearConfig`: delete every key of instance `n`; `exec` is the
        transaction's failure, if any. */
    method ClearConfig(n: string, exec: Option<Error>) returns (err: Option<Error>)
      modifies redis
      ensures exec.Some? ==> err == Some(Wrap("failed to delete redis keys: ", exec.value)) && redis.kv == old(redis.kv)
      ensures exec.None? ==> err.None? && redis.kv == old(redis.kv) - ClearKeys(n, |ts.defaultSANs|)
    {
      var tx := redis.kv - FixedClearKeys(n);
      var count := |ts.defaultSANs|;
      if count > 0 {
        var keys := new RedisKey[2 * count];
        for i := 0 to count
          invariant redis.kv == old(redis.kv)
          invariant forall k :: 0 <= k < 2 * i ==> keys[k] == SanClearKey(n, k)
        {
          keys[i * 2] := SanKey(Http, n, i);
          keys[i * 2 + 1] := SanKey(Tcp, n, i);
        }
        SanKeyList(keys[..], n, count);
        tx := tx - set k | k in keys[..];
      }
      if exec.Some? {
        return Some(Wrap("failed to delete redis keys: ", exec.value));
      }
      redis.kv := tx;
      return None;
    }

    /** `GenerateConfig` for webspace `rec` at address `addr` ("" when stopped).
        `user` is IAM's answer about the owner; `exec` is the transaction's
        failure, if any. */
    method GenerateConfig(rec: W.Record, user: Result<W.User, Error>, addr: string, exec: Option<Error>)
      returns (err: Option<Error>)
      modifies redis
      ensures addr == "" && ts.webspacedURL == "" ==> err.None? && redis.kv == old(redis.kv)
      ensures err.Some? ==> redis.kv == old(redis.kv)
      ensures !(addr == "" && ts.webspacedURL == "") && user.Err? ==> err == Some(Wrap("failed to get user: ", user.error))
      ensures !(addr == "" && ts.webspacedURL == "") && user.Ok? && exec.Some? ==>
        err == Some(Wrap("failed to set redis values: ", exec.value))
      ensures !(addr == "" && ts.webspacedURL == "") && user.Ok? && exec.None? ==>
        err.None? &&
        redis.kv == old(redis.kv) + Written(ts, s.domain, M.InstanceName(s.instancePrefix, rec.userID), rec,
                                            user.value.username, [user.value.username + "." + s.domain] + rec.domains, addr)
    {
      if addr == "" && ts.webspacedURL == "" {
        return None;
      }
      var n := M.InstanceName(s.instancePrefix, rec.userID);
      if user.Err? {
        return Some(Wrap("failed to get user: ", user.error));
      }
      var username := user.value.username;
      var domains := [username + "." + s.domain] + rec.domains;
      var rule := JoinRules("Host", domains);

      ghost var kv := redis.kv;
      ghost var w: map<RedisKey, string> := map[];
      assert kv == kv + w;
      var tx := StageService(redis.kv, kv, w, n, rec, addr);
      w := WithService(w, ts, n, rec, addr);
      tx := StageRouter(tx, kv, w, n, rule);
      w := WithRouter(w, ts, n, rule);
      var p: Proto;
      if !rec.config.sniPassthrough {
        p := Http;
        tx := StageTermination(tx, kv, w, n, username, addr);
        w := WithTermination(w, n, username, s.domain, addr);
      } else {
        p := Tcp;
        var sniRule := JoinRules("HostSNI", domains);
        tx := StagePassthrough(tx, kv, w, n, rec, addr, sniRule);
        w := WithPassthrough(w, ts, n, rec, addr, sniRule);
      }
      tx := StageTls(tx, kv, w, ts, p, n, s.domain);
      if exec.Some? {
        return Some(Wrap("failed to set redis values: ", exec.value));
      }
      redis.kv := tx;
      return None;
    }

    /** The service part of `GenerateConfig`'s writes. */
    method StageService(tx: map<RedisKey, string>, ghost kv: map<RedisKey, string>, ghost w: map<RedisKey, string>,
                        n: string, rec: W.Record, addr: string) returns (r: map<RedisKey, string>)
      requires tx == kv + w
      ensures r == kv + WithService(w, ts, n, rec, addr)
    {
      r := tx;
      if addr != "" {
        r := r[RedisKey(Http, Services, n, Main, ServerURL) := "http://" + addr + ":" + DecimalString(rec.config.httpPort)];
      } else {
        r := r[RedisKey(Http, Services, n, Main, PassHostHeader) := "1"];
        r := r[RedisKey(Http, Middlewares, n, Boot, BootURL) := ts.webspacedURL];
        r := r[RedisKey(Http, Middlewares, n, Boot, BootIAMToken) := ts.iamToken];
        r := r[RedisKey(Http, Middlewares, n, Boot, BootUserID) := IntString(rec.userID)];
        r := r[Router(Http, n, Main, Middleware) := n + "-boot"];
      }
    }

    /** The plain router part of `GenerateConfig`'s writes. */
    method StageRouter(tx: map<RedisKey, string>, ghost kv: map<RedisKey, string>, ghost w: map<RedisKey, string>,
                       n: string, rule: string) returns (r: map<RedisKey, string>)
      requires tx == kv + w
      ensures r == kv + WithRouter(w, ts, n, rule)
    {
      r := tx[Router(Http, n, Main, Service) := n];
      r := r[Router(Http, n, Main, Rule) := rule];
      r := r[Router(Http, n, Main, EntryPoint) := ts.httpsEntryPoint];
    }

    /** The TLS-termination part of `GenerateConfig`'s writes. */
    method StageTermination(tx: map<RedisKey, string>, ghost kv: map<RedisKey, string>, ghost w: map<RedisKey, string>,
                            n: string, username: string, addr: string) returns (r: map<RedisKey, string>)
      requires tx == kv + w
      ensures r == kv + WithTermination(w, n, username, s.domain, addr)
    {
      r := tx[Router(Http, n, Https, Service) := n];
      r := r[Router(Http, n, Https, Rule) := "Host(`" + username + "." + s.domain + "`)"];
      if addr == "" {
        r := r[Router(Http, n, Https, Middleware) := n + "-boot"];
      }
    }

    /** The SNI-passthrough part of `GenerateConfig`'s writes. */
    method StagePassthrough(tx: map<RedisKey, string>, ghost kv: map<RedisKey, string>, ghost w: map<RedisKey, string>,
                            n: string, rec: W.Record, addr: string, sniRule: string) returns (r: map<RedisKey, string>)
      requires tx == kv + w
      ensures r == kv + WithPassthrough(w, ts, n, rec, addr, sniRule)
    {
      r := tx;
      if addr != "" {
        r := r[RedisKey(Tcp, Services, n, Main, ServerAddress) := addr + ":" + DecimalString(rec.config.httpPort)];
        r := r[Router(Tcp, n, Https, Service) := n];
      } else {
        r := r[Router(Tcp, n, Https, SNIBootURL) := ts.webspacedURL];
        r := r[Router(Tcp, n, Https, SNIBootIAMToken) := ts.iamToken];
        r := r[Router(Tcp, n, Https, SNIBootUserID) := IntString(rec.userID)];
      }
      r := r[Router(Tcp, n, Https, Rule) := sniRule];
      r := r[Router(Tcp, n, Https, Passthrough) := "true"];
    }

  }

  /** The TLS part of the writes, SANs last and by index, staged on top of a
      transaction that already holds `kv + w`. */
  method StageTls(tx: map<RedisKey, string>, ghost kv: map<RedisKey, string>, ghost w: map<RedisKey, string>,
                  ts: TraefikSettings, p: Proto, n: string, domain: string) returns (r: map<RedisKey, string>)
    requires tx == kv + w
    ensures r == kv + WithTls(w, ts, p, n, domain)
  {
    UnionUpdate(kv, w, Router(p, n, Https, EntryPoint), ts.httpsEntryPoint);
    ghost var w1 := w[Router(p, n, Https, EntryPoint) := ts.httpsEntryPoint];
    r := tx[Router(p, n, Https, EntryPoint) := ts.httpsEntryPoint];
    UnionUpdate(kv, w1, Router(p, n, Https, TLS), "true");
    ghost var w2 := w1[Router(p, n, Https, TLS) := "true"];
    r := r[Router(p, n, Https, TLS) := "true"];
    UnionUpdate(kv, w2, Router(p, n, Https, TLSMain), "*." + domain);
    ghost var w3 := w2[Router(p, n, Https, TLSMain) := "*." + domain];
    r := r[Router(p, n, Https, TLSMain) := "*." + domain];
    ghost var w4 := w3;
    if ts.certResolver != "" {
      UnionUpdate(kv, w3, Router(p, n, Https, CertResolver), ts.certResolver);
      w4 := w3[Router(p, n, Https, CertResolver) := ts.certResolver];
      r := r[Router(p, n, Https, CertResolver) := ts.certResolver];
    }
    r := StageSans(r, kv, w4, p, n, ts.defaultSANs);
  }

  /** The default SANs of the HTTPS router, by index. */
  method StageSans(tx: map<RedisKey, string>, ghost kv: map<RedisKey, string>, ghost w: map<RedisKey, string>,
                   p: Proto, n: string, sans: seq<string>) returns (r: map<RedisKey, string>)
    requires tx == kv + w
    ensures r == kv + WithSans(w, p, n, sans)
  {
    r := tx;
    for i := 0 to |sans|
      invariant r == kv + WithSans(w, p, n, sans[..i])
    {
      UnionUpdate(kv, WithSans(w, p, n, sans[..i]), SanKey(p, n, i), sans[i]);
      WithSansSnoc(w, p, n, sans, i);
      r := r[SanKey(p, n, i) := sans[i]];
    }
    assert sans[..|sans|] == sans;
  }

  /** One more SAN writes one more key. */
  lemma WithSansSnoc(w: map<RedisKey, string>, p: Proto, n: string, sans: seq<string>, i: nat)
    requires i < |sans|
    ensures WithSans(w, p, n, sans[..i + 1]) == WithSans(w, p, n, sans[..i])[SanKey(p, n, i) := sans[i]]
  {
    assert sans[..i + 1][..i] == sans[..i];
  }

  /** Writing a key after a union is writing it into the right-hand map. */
  lemma UnionUpdate(a: map<RedisKey, string>, b: map<RedisKey, string>, k: RedisKey, v: string)
    ensures (a + b)[k := v] == a + b[k := v]
  {
  }

  /** The key list `ClearConfig` builds holds exactly the SAN keys. */
  lemma SanKeyList(keys: seq<RedisKey>, n: string, count: nat)
    requires |keys| == 2 * count
    requires forall k :: 0 <= k < 2 * count ==> keys[k] == SanClearKey(n, k)
    ensures (set k | k in keys) == SanClearKeys(n, count)
  {
    forall key | key in keys
      ensures key in SanClearKeys(n, count)
    {
      var k :| 0 <= k < |keys| && keys[k] == key;
    }
  }
}
