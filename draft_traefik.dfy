/** Traefik configuration of the older generation (webspaced/internal/webspace/traefik.go).
    `UpdateConfig` always deletes the instance's keys first, then, for a running
    instance, routes its domains to its HTTP port and, unless the webspace
    declares its own HTTPS port, adds a TLS-terminating router for the owner's
    default domain. Each of the two phases is one Redis transaction. */
module DraftTraefik {
  import opened Util
  import opened Errors
  import D = DraftWebspace
  import DraftManager
  import opened TraefikRedis

  /** The Traefik section of the older daemon configuration. */
  datatype DraftTraefikSettings = DraftTraefikSettings(
    httpEntryPoint: string, httpsEntryPoint: string, certResolver: string, sans: seq<string>)

  /** The same TLS settings in the form the current writer takes them; this
      generation has no boot middleware. */
  function TlsSettings(ts: DraftTraefikSettings): (r: TraefikSettings)
    ensures r.httpsEntryPoint == ts.httpsEntryPoint && r.certResolver == ts.certResolver
    ensures r.defaultSANs == ts.sans
  {
    TraefikSettings(ts.httpsEntryPoint, ts.certResolver, ts.sans, "", "")
  }

  /** The fixed keys the delete phase removes. */
  function DraftFixedKeys(n: string): set<RedisKey> {
    {
      RedisKey(Http, Services, n, Main, ServerURL),

      Router(Http, n, Main, Service),
      Router(Http, n, Main, Rule),
      Router(Http, n, Main, EntryPoint),

      RedisKey(Http, Services, n, Https, ServerURL),

      Router(Http, n, Https, Service),
      Router(Http, n, Https, Rule),
      Router(Http, n, Https, EntryPoint),

      Router(Http, n, Https, TLS),
      Router(Http, n, Https, TLSMain),
      Router(Http, n, Https, CertResolver)
    }
  }

  /** The SAN keys the delete phase removes: HTTP only, one per SAN. */
  function DraftSanKeys(n: string, count: nat): set<RedisKey> {
    set i | 0 <= i < count :: SanKey(Http, n, i)
  }

  function DraftClearKeys(n: string, count: nat): set<RedisKey> {
    DraftFixedKeys(n) + DraftSanKeys(n, count)
  }

  /** The older generation deletes a subset of what the current one deletes: it
      never wrote boot middleware, TCP routers or TCP SAN keys. The HTTPS service
      URL is its own. */
  lemma DraftClearWithinCurrent(n: string, count: nat)
    ensures DraftClearKeys(n, count) - {RedisKey(Http, Services, n, Https, ServerURL)} <= ClearKeys(n, count)
  {
    forall k | k in DraftSanKeys(n, count)
      ensures k in SanClearKeys(n, count)
    {
      var i := k.path.index;
      SanClearKeyAt(n, i);
      assert 0 <= 2 * i < 2 * count && SanClearKey(n, 2 * i) == k;
    }
  }

  /** The backend both routers lead to. */
  function Backend(addr: string, rec: D.Record): string {
    "http://" + addr + ":" + DecimalString(rec.config.httpPort)
  }

  /** The plain router over all the webspace's domains, on the HTTP entry point. */
  function DraftRouting(ts: DraftTraefikSettings, n: string, backend: string, rule: string): map<RedisKey, string> {
    map[RedisKey(Http, Services, n, Main, ServerURL) := backend]
       [Router(Http, n, Main, Service) := n]
       [Router(Http, n, Main, Rule) := rule]
       [Router(Http, n, Main, EntryPoint) := ts.httpEntryPoint]
  }

  /** TLS termination for the owner's default domain; custom domains are left out. */
  function DraftTermination(m: map<RedisKey, string>, domain: string, n: string, user: string, backend: string)
    : map<RedisKey, string>
  {
    m[RedisKey(Http, Services, n, Https, ServerURL) := backend]
     [Router(Http, n, Https, Service) := n]
     [Router(Http, n, Https, Rule) := "Host(`" + user + "." + domain + "`)"]
  }

  /** Everything the set phase writes for a running instance at `addr`. */
  function DraftWritten(ts: DraftTraefikSettings, domain: string, n: string, rec: D.Record, addr: string)
    : map<RedisKey, string>
  {
    var m := DraftRouting(ts, n, Backend(addr, rec), RuleOf("Host", rec.domains));
    if rec.config.httpsPort == 0 then
      WithTls(DraftTermination(m, domain, n, rec.user, Backend(addr, rec)), TlsSettings(ts), Http, n, domain)
    else m
  }

  /** The plain router matches every domain of the webspace, and the HTTP service
      points at the instance's HTTP port. */
  lemma DraftWrittenRouting(ts: DraftTraefikSettings, domain: string, n: string, rec: D.Record, addr: string)
    ensures var m := DraftWritten(ts, domain, n, rec, addr);
      RedisKey(Http, Services, n, Main, ServerURL) in m &&
      m[RedisKey(Http, Services, n, Main, ServerURL)] == "http://" + addr + ":" + DecimalString(rec.config.httpPort) &&
      Router(Http, n, Main, Rule) in m && m[Router(Http, n, Main, Rule)] == RuleOf("Host", rec.domains) &&
      Router(Http, n, Main, Service) in m && m[Router(Http, n, Main, Service)] == n &&
      Router(Http, n, Main, EntryPoint) in m && m[Router(Http, n, Main, EntryPoint)] == ts.httpEntryPoint
  {
    if rec.config.httpsPort == 0 {
      var b := DraftTermination(DraftRouting(ts, n, Backend(addr, rec), RuleOf("Host", rec.domains)),
                                domain, n, rec.user, Backend(addr, rec));
      TlsFrame(b, TlsSettings(ts), Http, n, domain, RedisKey(Http, Services, n, Main, ServerURL));
      TlsFrame(b, TlsSettings(ts), Http, n, domain, Router(Http, n, Main, Rule));
      TlsFrame(b, TlsSettings(ts), Http, n, domain, Router(Http, n, Main, Service));
      TlsFrame(b, TlsSettings(ts), Http, n, domain, Router(Http, n, Main, EntryPoint));
    }
  }

  /** Without an HTTPS port of its own, the webspace gets a TLS-terminating router
      for its default domain with the configured TLS settings; with one, no HTTPS
      key is written at all. */
  lemma DraftWrittenHttps(ts: DraftTraefikSettings, domain: string, n: string, rec: D.Record, addr: string)
    ensures var m := DraftWritten(ts, domain, n, rec, addr);
      rec.config.httpsPort == 0 ==>
        RedisKey(Http, Services, n, Https, ServerURL) in m &&
        m[RedisKey(Http, Services, n, Https, ServerURL)] == "http://" + addr + ":" + DecimalString(rec.config.httpPort) &&
        Router(Http, n, Https, Rule) in m && m[Router(Http, n, Https, Rule)] == "Host(`" + rec.user + "." + domain + "`)" &&
        Router(Http, n, Https, TLS) in m && m[Router(Http, n, Https, TLS)] == "true" &&
        Router(Http, n, Https, TLSMain) in m && m[Router(Http, n, Https, TLSMain)] == "*." + domain &&
        Router(Http, n, Https, EntryPoint) in m && m[Router(Http, n, Https, EntryPoint)] == ts.httpsEntryPoint &&
        (Router(Http, n, Https, CertResolver) in m <==> ts.certResolver != "") &&
        forall i :: 0 <= i < |ts.sans| ==> SanKey(Http, n, i) in m && m[SanKey(Http, n, i)] == ts.sans[i]
    ensures var m := DraftWritten(ts, domain, n, rec, addr);
      rec.config.httpsPort != 0 ==> forall k :: k in m ==> k.role == Main
  {
    if rec.config.httpsPort == 0 {
      var b := DraftTermination(DraftRouting(ts, n, Backend(addr, rec), RuleOf("Host", rec.domains)),
                                domain, n, rec.user, Backend(addr, rec));
      TlsFrame(b, TlsSettings(ts), Http, n, domain, RedisKey(Http, Services, n, Https, ServerURL));
      TlsFrame(b, TlsSettings(ts), Http, n, domain, Router(Http, n, Https, Rule));
      TlsWrites(b, TlsSettings(ts), Http, n, domain);
    }
  }

  /** Every key the set phase writes is one the delete phase removes, so each
      update leaves exactly the new configuration behind. */
  lemma DraftClearCoversWrite(ts: DraftTraefikSettings, domain: string, n: string, rec: D.Record, addr: string)
    ensures DraftWritten(ts, domain, n, rec, addr).Keys <= DraftClearKeys(n, |ts.sans|)
  {
    if rec.config.httpsPort == 0 {
      var b := DraftTermination(DraftRouting(ts, n, Backend(addr, rec), RuleOf("Host", rec.domains)),
                                domain, n, rec.user, Backend(addr, rec));
      assert b.Keys <= DraftFixedKeys(n);
      var m' := b[Router(Http, n, Https, EntryPoint) := ts.httpsEntryPoint]
                 [Router(Http, n, Https, TLS) := "true"]
                 [Router(Http, n, Https, TLSMain) := "*." + domain];
      var m'' := if ts.certResolver != "" then m'[Router(Http, n, Https, CertResolver) := ts.certResolver] else m';
      assert m''.Keys <= DraftFixedKeys(n);
      forall k | k in WithSans(m'', Http, n, ts.sans) && k !in m''
        ensures k in DraftSanKeys(n, |ts.sans|)
      {
        assert k == SanKey(Http, n, k.path.index);
      }
    }
  }

  class DraftTraefik {
    const ts: DraftTraefikSettings
    /** The base domain of the webspaces. */
    const domain: string
    /** The suffix of instance names. */
    const suffix: string
    const redis: RedisClient

    constructor (ts: DraftTraefikSettings, domain: string, suffix: string, redis: RedisClient)
      ensures this.ts == ts && this.domain == domain && this.suffix == suffix && this.redis == redis
    {
      this.ts := ts;
      this.domain := domain;
      this.suffix := suffix;
      this.redis := redis;
    }

    /** `UpdateConfig` for webspace `rec`. `delExec` and `setExec` are the two
        transactions' failures, if any; `ip` is the instance's address once the
        retries are over. */
    method UpdateConfig(rec: D.Record, running: bool, ip: Result<string, Error>, delExec: Option<Error>,
                        setExec: Option<Error>) returns (err: Option<Error>)
      modifies redis
      ensures delExec.Some? ==> err == Some(Wrap("failed to delete redis keys: ", delExec.value)) && redis.kv == old(redis.kv)
      ensures delExec.None? ==>
        var cleared := old(redis.kv) - DraftClearKeys(DraftManager.InstanceName(rec.user, suffix), |ts.sans|);
        (!running ==> err.None? && redis.kv == cleared) &&
        (running && ip.Err? ==> err == Some(Wrap("failed to get instance IP address: ", ip.error)) && redis.kv == cleared) &&
        (running && ip.Ok? && setExec.Some? ==>
           err == Some(Wrap("failed to set redis values: ", setExec.value)) && redis.kv == cleared) &&
        (running && ip.Ok? && setExec.None? ==>
           err.None? &&
           redis.kv == cleared + DraftWritten(ts, domain, DraftManager.InstanceName(rec.user, suffix), rec, ip.value))
    {
      var n := DraftManager.InstanceName(rec.user, suffix);
      var tx := DeleteKeys(n);
      if delExec.Some? {
        return Some(Wrap("failed to delete redis keys: ", delExec.value));
      }
      redis.kv := tx;

      if !running {
        return None;
      }
      if ip.Err? {
        return Some(Wrap("failed to get instance IP address: ", ip.error));
      }
      tx := StageWrites(rec, n, ip.value);
      if setExec.Some? {
        return Some(Wrap("failed to set redis values: ", setExec.value));
      }
      redis.kv := tx;
      return None;
    }

    /** The delete phase's transaction: the fixed keys, then the SAN keys listed
        one by one. */
    method DeleteKeys(n: string) returns (tx: map<RedisKey, string>)
      ensures tx == redis.kv - DraftClearKeys(n, |ts.sans|)
    {
      tx := redis.kv - DraftFixedKeys(n);
      if |ts.sans| > 0 {
        var keys: seq<RedisKey> := [];
        for i := 0 to |ts.sans|
          invariant keys == seq(i, j requires 0 <= j < i => SanKey(Http, n, j))
        {
          keys := keys + [SanKey(Http, n, i)];
        }
        assert (set k | k in keys) == DraftSanKeys(n, |ts.sans|) by {
          forall k | k in DraftSanKeys(n, |ts.sans|) ensures k in keys {
            assert keys[k.path.index] == k;
          }
        }
        tx := tx - set k | k in keys;
      }
    }

    /** The set phase's transaction on top of the current store. */
    method StageWrites(rec: D.Record, n: string, addr: string) returns (tx: map<RedisKey, string>)
      ensures tx == redis.kv + DraftWritten(ts, domain, n, rec, addr)
    {
      var rule := JoinRules("Host", rec.domains);
      var backend := "http://" + addr + ":" + DecimalString(rec.config.httpPort);
      ghost var kv := redis.kv;
      tx := redis.kv[RedisKey(Http, Services, n, Main, ServerURL) := backend];
      tx := tx[Router(Http, n, Main, Service) := n];
      tx := tx[Router(Http, n, Main, Rule) := rule];
      tx := tx[Router(Http, n, Main, EntryPoint) := ts.httpEntryPoint];
      ghost var w := DraftRouting(ts, n, backend, rule);
      assert tx == kv + w;
      if rec.config.httpsPort == 0 {
        tx := tx[RedisKey(Http, Services, n, Https, ServerURL) := backend];
        tx := tx[Router(Http, n, Https, Service) := n];
        tx := tx[Router(Http, n, Https, Rule) := "Host(`" + rec.user + "." + domain + "`)"];
        w := DraftTermination(w, domain, n, rec.user, backend);
        assert tx == kv + w;
        tx := StageTls(tx, kv, w, TlsSettings(ts), Http, n, domain);
      }
    }
  }
}
