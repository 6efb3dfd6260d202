# webspaced, modelled in Dafny

webspaced is a daemon that gives each user a personal LXD container, a
"webspace". The daemon keeps a record of each webspace's configuration,
domains and port forwards inside the container's LXD configuration. It routes
web traffic to running webspaces through Traefik, configured via Redis. It
forwards TCP ports to the webspaces and exposes all of this through an HTTP
API. Users drive that API through a small Python command-line client.

The repository holds two generations of the daemon:

- the current one (`internal/`, `pkg/`), which keys webspaces by numeric IAM user id;
- an older draft (`webspaced/`), which keys them by Unix user name and resolves callers through a small C daemon, the passwd / group proxy.

This project models the logic of both generations:

- the webspace record operations;
- the port-forward bookkeeping;
- LXD event handling and instance naming;
- the Traefik key/value configuration;
- the error-to-status mapping;
- the HTTP request handling;
- the proxy's wire protocol on both sides;
- the command-line helpers.

Everything outside the daemon is a parameter of the model, standing for the answer the outside world gives: LXD, DNS, IAM, Redis, Kubernetes, sockets and the random number generator. State that the source updates in place is modelled as Dafny classes:

- a webspace's record;
- the forward table;
- the manager's last event;
- the Redis store.

The proxy's byte buffers are arrays. Pure decisions are functions, and the properties are proved as `ensures` clauses and lemmas.

Files:

- `util.dfy`: options, results, bytes, decimal numbers, joins, ASCII lower-casing, sorting, swap-removal.
- `errors.dfy`: sentinel errors, `%w` wrap chains, `ErrToStatus`, both generations of `convertLXDError`.
- `allocator.dfy`: the implicit external-port allocator, as written and corrected.
- `lookups.dfy`: the search loops over all webspaces: TXT records, domains, ports.
- `webspace.dfy`: the current `Webspace` record and its operations, and `GetIP`.
- `ports.dfy`: the current `PortsManager` with its Kubernetes Service port list.
- `manager.dfy`: instance naming, event parsing and classification, `instanceToWebspace`, `Get`, `GetAll`, the provider choice, `onLxdEvent`, `Create`.
- `traefik_redis.dfy`: `ClearConfig` and `GenerateConfig` over a Redis key/value store.
- `http.dfy`, `middleware.dfy`, `endpoints.dfy`: error replies, port-parameter parsing, token extraction, the middlewares and the endpoints.
- `draft_*.dfy`: the older generation's webspace, ports, manager, Traefik writer and server.
- `pw_gr_wire.dfy`, `pw_gr_proxy.dfy`, `pw_gr_server.dfy`: the proxy's packet format, its Go client and its C daemon.
- `cli.dfy`: `ask`, `find_image`, `Client.req` and `init`.

## Model

| member | source | states |
|---|---|---|
| Errors.WrapKeeps | pkg/util/errors.go:51-66 | a `%w` wrapping prefixes the message and keeps the chain's sentinel |
| Errors.IsMeansRoot | pkg/util/errors.go:51-66 | `errors.Is(err, s)` holds exactly when `s` is the sentinel at the bottom of the chain |
| Errors.ErrToStatus | pkg/util/errors.go:51-66 | every error maps to one of 400, 401, 404, 409 or 500 |
| Errors.ErrToStatusByRoot | pkg/util/errors.go:53-64 | the status is the table entry of the chain's sentinel: 401 for the token/admin errors, 404 for not-found/not-running, 409 for exists/running/used, 400 for the six validation errors, 500 for everything else and for foreign errors, however deeply wrapped |
| Errors.ConvertLXDErrorTable | internal/webspace/webspace.go:26-40 | the four exact LXD messages become GenericNotFound, Exists, NotRunning and Running; any other error is returned unchanged |
| Errors.ConvertLXDErrorIdempotent | internal/webspace/webspace.go:26-40 | converting twice is the same as converting once |
| Errors.ConvertLXDErrorStatus | internal/webspace/webspace.go:26-40 | the converted LXD errors answer 404 or 409 and every other error keeps its status |
| Errors.ConvertLXDErrorDraftTable | webspaced/internal/webspace/webspace.go:44-58 | the older conversion maps the same four messages to the older package's own sentinels and leaves other errors alone |
| Errors.ConvertGenerationsAgree | webspaced/internal/webspace/webspace.go:44-58 | both conversions produce an error with the same message |
| Errors.ConvertDraftStatus | webspaced/internal/webspace/webspace.go:44-58 | the older conversion either leaves the error unchanged or yields a sentinel the current status table answers with 500 |
| PortAllocation.DrawBound | internal/webspace/webspace.go:366-368 | the draw bound is `End - len(allPorts) + 1 - Start` when that fits a uint16 |
| PortAllocation.SkipUsed | internal/webspace/webspace.go:370-375 | the push loop computes the skip function: it stops at the first used port above the candidate and steps over every other one |
| PortAllocation.SkippedSorted | internal/webspace/webspace.go:370-375 | over ascending used ports, the pushed candidate moves up by at most their number and lands on no used port |
| PortAllocation.SkippedBounded | internal/webspace/webspace.go:370-375 | in any order, the pushed candidate moves up by at most one per used port |
| PortAllocation.AllocateAsWrittenReusesPort | internal/webspace/webspace.go:352-376 | the used ports visited in map order [1002, 1001] with draw 1 in 1000-1010 hand out 1001, which is in use |
| PortAllocation.Allocate | internal/webspace/webspace.go:365-376 | an exhausted range is a draw panic |
| PortAllocation.AllocateSound | internal/webspace/webspace.go:365-376 | with fewer used ports than the range holds, the allocator that sorts first returns a port in [Start, End] that no webspace uses |
| PortAllocation.DrawPort | internal/webspace/webspace.go:365-376 | the draw and the skip loop over the used ports, in the order the scan met them, panic exactly when the allocator as written does and otherwise return its port; in a range that is not exhausted that port lies in [Start, End], and it is unused when the order was ascending |
| PortAllocation.AllocateAsWrittenInRange | internal/webspace/webspace.go:365-376 | while the range is not exhausted, the allocator as written returns a port in [Start, End] whatever the order, and an unused one when the order is ascending |
| PortAllocation.AsWrittenSortedIsCorrected | internal/webspace/webspace.go:365-376 | on used ports met in ascending order, the allocator as written and the one that sorts first agree |
| Lookups.AnyEquals | internal/webspace/webspace.go:279-288 | the TXT loop finds the verification record exactly when one of the records equals it |
| Lookups.ListedSnoc | internal/webspace/webspace.go:290-301 | one more webspace lists a domain exactly when the earlier ones or the new one do |
| Lookups.DomainListed | internal/webspace/webspace.go:290-301 | the domain scan reports use exactly when some webspace lists the domain |
| Lookups.ScanPorts | internal/webspace/webspace.go:352-363 | a clash exactly when some webspace forwards the port; otherwise, for port 0, the used-port list is a `ScanOrder`: the webspaces in their listed order, each one's keys together, once each, in some map order; hence one entry per forward |
| Lookups.ScanOrderGroups | internal/webspace/webspace.go:352-363 | the scan never interleaves two webspaces' keys: with `{1002}` listed before `{1001}` the only collected order is `[1002, 1001]` |
| Lookups.PartsSnoc | internal/webspace/webspace.go:352-363 | appending one webspace's keys to a scan order adds one group to it |
| Lookups.ScanKeys | internal/webspace/webspace.go:353-362 | one webspace's turn: a hit exactly when it forwards the port; otherwise, for port 0, the list so far is kept as a prefix and the webspace's keys follow it, each once |
| Lookups.ForwardedSnoc | internal/webspace/webspace.go:352-363 | one more webspace adds its ports and its forward count |
| Webspace.LxdConfig | internal/webspace/webspace.go:73-84 | the record is stored exactly when its startup delay is not negative; otherwise a 400 error |
| Webspace.SaveResult | internal/webspace/webspace.go:220-243 | a save succeeds exactly when the instance is read, the delay is valid and the update and wait succeed; a negative delay is ErrBadValue |
| Webspace.DefaultDomainOf | internal/webspace/webspace.go:246-253 | the default domain is `username.domain`, and an IAM failure is wrapped |
| Webspace.Webspace.constructor | internal/webspace/manager.go:351-369 | a webspace object holds the record it is built from |
| Webspace.Webspace.GetDomains | internal/webspace/webspace.go:256-269 | returns the default domain followed by the stored domains and changes nothing |
| Webspace.Webspace.AddDomain | internal/webspace/webspace.go:272-307 | TXT failure, missing `webspace:id:<uid>` record, listing failure and domain in use are reported in that order with nothing changed; otherwise the domain is appended and the save's outcome returned |
| Webspace.Webspace.RemoveDomain | internal/webspace/webspace.go:310-331 | the default domain is refused and a missing one is not found; otherwise the first match is swapped with the last and dropped, removing one copy from the multiset, and nothing else changes |
| Webspace.VisitOrderReusesPort | internal/webspace/webspace.go:352-376 | with webspaces forwarding 1002 then 1001, the only scan order is `[1002, 1001]`, so draw 1 in 1000-1010 gives the used port 1001 |
| Webspace.CheckAddPort | internal/webspace/webspace.go:335-363 | the checks before allocation reject as the source does, in its order; when they pass for port 0, the collected used ports are in an order the nested scan can produce: webspace by webspace, each one's ports together |
| Webspace.Webspace.AddPort | internal/webspace/webspace.go:334-383 | the checks run in the source's order (too many ports, internal 0, external out of range, listing failure, port in use) and change nothing; an explicit port adds exactly that entry; port 0 adds the entry the allocator as written picks over an order the nested scan can meet the used ports in (webspace by webspace, each one's ports together); while the range is not exhausted it lies in range, and it is unused when that order was ascending |
| Webspace.Webspace.RemovePort | internal/webspace/webspace.go:386-393 | a missing port is not found; otherwise exactly that key is deleted |
| Webspace.GetIP | internal/webspace/webspace.go:396-425 | an LXD failure is converted and wrapped; no `eth0` is ErrInterface; otherwise the last global inet address, or ErrAddress when there is none |
| Webspace.LastGlobalInetIsLast | internal/webspace/webspace.go:406-422 | the chosen address belongs to a global inet entry with no such entry after it; no such entry gives the empty address |
| Ports.ServicePortFor | internal/webspace/ports.go:174-180 | a forward's Service port is `ws-fwd-<e>`, TCP, from `e` to `e` |
| Ports.UpsertedSound | internal/webspace/ports.go:181-194 | after `Add`'s Service step the forward's entry is listed, every entry on port `e` is overwritten by it, one is appended only when there was none, and every other entry stays in place |
| Ports.UpsertServicePort | internal/webspace/ports.go:181-194 | the overwrite-or-append loop produces `Upserted` |
| Ports.FirstPortIndex | internal/webspace/ports.go:221-226 | the index of the first Service entry on port `e` |
| Ports.FindPortIndex | internal/webspace/ports.go:220-227 | the search loop gives -1 exactly when no entry uses `e`, otherwise the first index |
| Ports.ServiceAfterRemove | internal/webspace/ports.go:228-234 | swap-removal drops one copy of the first entry on `e` and leaves the list alone when there is none |
| Ports.ServiceAfterRemoveKeepsOthers | internal/webspace/ports.go:228-234 | entries on other ports keep their multiplicity |
| Ports.CountAfterRemove | internal/webspace/ports.go:228-234 | a removal takes exactly one entry off port `e` when it had one, and none off any other port |
| Ports.AddK8sError | internal/webspace/ports.go:166-198 | mirroring a forward fails exactly when reading or updating the Service fails |
| Ports.RemoveK8sError | internal/webspace/ports.go:213-245 | removal's Service step fails exactly when reading fails, or updating fails when there was an entry to drop |
| Ports.ForwardFor | internal/webspace/ports.go:286-316 | the forward intended for port `e`: a running webspace gets backend `addr:internal` and no hook; a stopped one no backend and a hook that starts it and dials its own internal port |
| Ports.ForwardAsWritten | internal/webspace/ports.go:277-319 | the forward a round leaves when the shared loop variable ends on `shared`: the intended backend, and for a stopped webspace a hook dialling `shared` |
| Ports.ForwardAsWrittenAgrees | internal/webspace/ports.go:277-319 | the forward as written is the intended one exactly when the webspace is running or the loop ended on the same internal port |
| Ports.AddedAllRunning | internal/webspace/ports.go:277-319 | for a running webspace, the forwards as written are exactly the intended ones on every port |
| Ports.RangeOrder | internal/webspace/ports.go:277 | a `range` over a map meets every key exactly once, in an order left open |
| Ports.RangeDistinct | internal/webspace/ports.go:277 | no key is met twice |
| Ports.RoundsAll | internal/webspace/ports.go:277 | once every round has run, every key has had its round |
| Ports.RangeKeys | internal/webspace/ports.go:277 | a key of the map is exactly a key the `range` meets |
| Ports.ReaddForward | internal/webspace/ports.go:279-321 | one round leaves the port its own forward when its listener comes up and none when it fails, and no other port changes |
| Ports.RoundsRun | internal/webspace/ports.go:277-321 | the loop runs up to and including the first failing round: every round before the last run succeeded, and stopping early means the last one failed |
| Ports.ForwardsAfterAt | internal/webspace/ports.go:277-321 | after the rounds run, a port whose listener came up has its own forward, one whose listener failed has none, and a port with no round keeps what it had |
| Ports.ForwardsAfterRun | internal/webspace/ports.go:277-321 | the same for all ports of a `range` at once, nothing changing outside the rounds run |
| Ports.ServiceAfterHas | internal/webspace/ports.go:181-198 | without a Service the list is untouched; with one, rounds that all succeed list the entry of each of their ports |
| Ports.RoundStep | internal/webspace/ports.go:277-321 | one more round extends the rounds run by one, and a failing round is the last |
| Ports.RanAll | internal/webspace/ports.go:277-324 | when every round succeeded, the loop ran all of them and returns nil |
| Ports.ShareHooksInstalled | internal/webspace/ports.go:286-304 | once the loop ends, each installed hook of a stopped webspace dials the internal port the loop variable ended on, and no other forward changes |
| Ports.ForwardsOutcomeInstalled | internal/webspace/ports.go:277-324 | after the rounds run, each port whose listener came up has its forward as written, one whose listener failed has none, and nothing outside the rounds run changes |
| Ports.AddAllOutcomeError | internal/webspace/ports.go:318-323 | `AddAll` fails exactly when some round fails, then with the first failing round's error wrapped as "failed to add port forward for: " |
| Ports.AddAllOutcomeAdded | internal/webspace/ports.go:277-324 | a successful `AddAll` leaves every port of the webspace its forward as written |
| Ports.AddAllOutcomeService | internal/webspace/ports.go:277-324 | a successful `AddAll` with a Service lists the entry of every port of the webspace; without one the list is untouched |
| Ports.AddAllOutcomeSummary | internal/webspace/ports.go:277-324 | fails exactly when some round fails; success leaves the forwards as written; ports outside the webspace keep their forwards |
| Ports.SharedHookMisroutes | internal/webspace/ports.go:277-304 | a stopped webspace forwarding 8080 to 80 and 2222 to 22, met in that order, succeeds with the hook on 8080 dialling 22 instead of 80 |
| Ports.PortsManager.constructor | internal/webspace/ports.go:130-151 | a new manager has no forwards |
| Ports.PortsManager.Add | internal/webspace/ports.go:154-204 | a forwarded port gives ErrUsed and a failed listener its error, both changing nothing; otherwise exactly key `e` is added and the Service updated |
| Ports.PortsManager.Remove | internal/webspace/ports.go:207-252 | a missing port gives ErrNotFound; a Service failure keeps everything; otherwise exactly key `e` goes and the Service loses its entry |
| Ports.PortsManager.RemoveEach | internal/webspace/ports.go:266-272 | removes each given forward unless its Service update fails, keeping the others unchanged; each removed port loses one Service entry when it had one, every other entry keeps its multiplicity, and the list only shrinks |
| Ports.PortsManager.RemoveNext | internal/webspace/ports.go:266-272 | one `Remove(e, true)` keeps what the removals so far promise |
| Ports.RemoveKeepsOthers | internal/webspace/ports.go:207-252 | dropping a forward leaves the Service entries of other ports alone |
| Ports.EntriesStep | internal/webspace/ports.go:207-252 | a removal takes the forward and, with a Service, one entry on its port, so the entries keep following the forwards |
| Ports.PortsManager.Trim | internal/webspace/ports.go:255-273 | a port shared by two webspaces is an error naming it that changes nothing; otherwise exactly the forwards no webspace uses go (bar Service failures), the rest untouched; the Service entries follow the removed forwards and the list only shrinks |
| Ports.PortsManager.Shutdown | internal/webspace/ports.go:327-331 | every forward is removed, except those whose Service update fails; without a Service the table ends empty; the Service entries follow the removed forwards |
| Ports.PortsManager.AddAll | internal/webspace/ports.go:276-324 | the outcome is `AddAllOutcome` over the order the `range` met the keys in: it succeeds exactly when every listener and Service update does; success leaves the forwards as written, every hook of a stopped webspace sharing the last round's internal port; other ports are untouched |
| Ports.PortsManager.ReaddEach | internal/webspace/ports.go:277-321 | the loop stops after the first failing round and leaves the forwards, Service list and error of the rounds it ran |
| Ports.PortsManager.ReaddRound | internal/webspace/ports.go:278-321 | one round either fails and ends the loop, or extends the rounds run by one |
| Ports.PortsManager.ShareLoopVariable | internal/webspace/ports.go:286-304 | the hooks installed in the rounds run all dial the internal port the loop variable ended on |
| Ports.PortsManager.Readd | internal/webspace/ports.go:278-322 | one round: it fails with its listener's error, or else the Service update's when a Service is configured; the port has its own forward exactly when its listener came up, and the Service lists it only when both steps succeeded |
| Ports.PortsOfUsed | internal/webspace/ports.go:255-265 | the collected port set holds exactly the ports of the webspaces seen so far |
| Ports.DisjointNoShared | internal/webspace/ports.go:255-265 | pairwise disjoint port maps are exactly maps without a shared port |
| Ports.DisjointStep | internal/webspace/ports.go:255-265 | a webspace disjoint from the ports seen keeps the maps disjoint |
| Ports.AddKeys | internal/webspace/ports.go:257-263 | the inner loop reports a duplicate exactly when a port was already seen |
| Ports.CollectPorts | internal/webspace/ports.go:256-265 | the collecting loop reports a shared port exactly when there is one, and otherwise collects every used port |
| Manager.InstanceName | internal/webspace/manager.go:235-237 | the name is the prefix, then `u`, then the decimal uid |
| Manager.InstanceNameInjective | internal/webspace/manager.go:235-237 | different uids get different instance names |
| Manager.TrailingDigits | internal/webspace/webspace.go:42 | the longest run of digits at the end of a string |
| Manager.DigitRun | internal/webspace/webspace.go:42 | the run of digits ending at a position: all digits, preceded by a non-digit or the start |
| Manager.DigitRunAfter | internal/webspace/webspace.go:42 | digits appended after a non-digit are exactly the trailing run |
| Manager.ParseSource | internal/webspace/webspace.go:42 | a match splits the source into `/1.0/<path>/<prefix>u<digits>` with a non-blank path and digits |
| Manager.ParseSourceComplete | internal/webspace/manager.go:258-262 | every source of that shape matches and yields its path and digits |
| Manager.EventUid | internal/webspace/manager.go:258-267 | the uid is the captured digits' value, and only values `strconv.Atoi` accepts |
| Manager.EventUidOfShape | internal/webspace/manager.go:258-267 | a source `/1.0/<path>/<prefix>u<digits>` yields the digits' value as uid, or nothing when it does not fit an int |
| Manager.EventUidRoundTrip | internal/webspace/manager.go:235-267 | the event source of an instance name yields that instance's uid |
| Manager.ActionOf | internal/webspace/webspace.go:43 | the action is the part after the last dash of a blank-free string that has a dash with characters on both sides |
| Manager.ActionOfLifecycle | internal/webspace/manager.go:288-292 | `kind-verb` yields `verb` |
| Manager.InstanceToWebspaceDecodes | internal/webspace/manager.go:351-369 | a missing config key is an error; a negative delay is ErrBadValue; otherwise the stored record |
| Manager.StoredRoundTrip | internal/webspace/manager.go:351-369 | a record that saving accepts is read back unchanged |
| Manager.Get | internal/webspace/manager.go:415-434 | a hint for a different user is ErrUIDMismatch before LXD is asked; an LXD failure is converted and wrapped; success is the stored record |
| Manager.Configured | internal/webspace/manager.go:437-456 | keeps only the instances that carry the webspace config key |
| Manager.GetAll | internal/webspace/manager.go:437-456 | succeeds exactly when every configured instance decodes, giving their records in order; otherwise the first failing instance's error |
| Manager.ConfiguredSnoc | internal/webspace/manager.go:437-456 | the configured instances of a prefix grow by the next instance exactly when it carries the config key |
| Manager.ConfiguredPrefix | internal/webspace/manager.go:437-456 | every instance with the config key is kept |
| Manager.ProviderChoice | internal/webspace/manager.go:42-49 | "kubernetes" selects Kubernetes, "redis" or "" Redis, anything else ErrTraefikProvider |
| Manager.Manager.constructor | internal/webspace/manager.go:39-69 | a new manager has seen no event |
| Manager.Manager.OnLxdEvent | internal/webspace/manager.go:244-349 | a repeated timestamp does nothing; otherwise the timestamp is recorded, and a webspace event clears its Traefik config, trims ports, then for a known non-deleting action regenerates the config and the forwards with the address the action implies; the forward table is unchanged until the trim, unchanged by a failed trim, trimmed to the ports in use after it, and after `AddAll` holds the webspace's forwards as written (a stopped webspace's hooks all dialling one of its internal ports) when every listener and Service update succeeds, with the trimmed table elsewhere |
| Manager.Manager.React | internal/webspace/manager.go:270-349 | for a webspace event: clear its Traefik config, trim its ports, then regenerate for a known non-deleting action with the address it implies; the forward table is the trimmed one, then the trimmed one with the webspace's forwards re-added as written |
| Manager.Manager.Regenerate | internal/webspace/manager.go:294-348 | started/restarted, shutdown/created and updated regenerate; deleted and unknown actions stop and leave the forwards alone; after `AddAll` the other ports keep their forwards and, when every add succeeds, each of the webspace's ports has its forward as written, a stopped webspace's hooks all dialling one of its internal ports |
| Manager.NewRecord | internal/webspace/manager.go:459-475 | a new record has the defaults and no domains or ports |
| Manager.SshdCommandKnown | internal/webspace/manager.go:531-545 | an install command exists exactly for alpine, archlinux, ubuntu, debian, fedora and centos under Go's `strings.ToLower` |
| Manager.SshdCommandIgnoresCase | internal/webspace/manager.go:531-545 | the choice depends on the lower-cased OS name only |
| Manager.SshdCommandUnicode | internal/webspace/manager.go:532-534 | "ALPİNE", with a capital I with dot above, lowers to "alpine" and gets the Alpine command |
| Manager.Create | internal/webspace/manager.go:459-581 | creates the named instance with a fresh record; boots it only for a password or key; with a key on a known OS installs sshd, stores the key and forwards port 22; an unknown OS gets neither; stops the instance afterwards |
| Manager.Provision | internal/webspace/manager.go:509-580 | boots only for a password or key; a key on a known OS leads to the sshd and key commands before port 22 is forwarded; an unknown OS gets neither; a successful run ends by stopping the instance |
| Manager.InstallKey | internal/webspace/manager.go:524-572 | an image-info failure is wrapped and runs nothing; an unknown or missing OS runs nothing and is no error; port 22 is forwarded only after both commands, and always when they succeed |
| TraefikRedis.Rules | internal/webspace/traefik_redis.go:110-114 | one `Host(`d`)` term per domain, in order |
| TraefikRedis.WithSans | internal/webspace/traefik_redis.go:211-216 | one key per default SAN, `sans/<i>` holding the i-th, and nothing else changed |
| TraefikRedis.TlsFrame | internal/webspace/traefik_redis.go:205-218 | the TLS step touches only its own protocol's TLS keys |
| TraefikRedis.RoutesRouter | internal/webspace/traefik_redis.go:110-122 | the plain router gets the rule, the service and the entry point |
| TraefikRedis.WrittenRouter | internal/webspace/traefik_redis.go:110-114 | the written rule joins `Host` terms over the default domain and the stored domains |
| TraefikRedis.RoutesRunning | internal/webspace/traefik_redis.go:117-122 | a running webspace gets `http://addr:port` and no boot keys |
| TraefikRedis.WrittenRunning | internal/webspace/traefik_redis.go:117-122 | the same holds of the whole written map |
| TraefikRedis.RoutesStopped | internal/webspace/traefik_redis.go:123-139 | a stopped webspace gets passhostheader and the `<n>-boot` middleware, and no server URL |
| TraefikRedis.RoutesBoot | internal/webspace/traefik_redis.go:123-135 | the boot middleware gets the daemon URL, the IAM token and the user id |
| TraefikRedis.WrittenStopped | internal/webspace/traefik_redis.go:123-139 | the same holds of the whole written map |
| TraefikRedis.RoutesTermination | internal/webspace/traefik_redis.go:146-163 | without passthrough the HTTPS router routes the default domain only, with the boot middleware exactly when stopped, and no TCP router |
| TraefikRedis.WrittenTermination | internal/webspace/traefik_redis.go:146-163 | the same holds of the whole written map |
| TraefikRedis.RoutesPassthrough | internal/webspace/traefik_redis.go:164-190 | with passthrough the TCP router gets the SNI rule and passthrough, and no HTTP HTTPS router |
| TraefikRedis.WrittenPassthrough | internal/webspace/traefik_redis.go:164-190 | the rule is `HostSNI` over all domains |
| TraefikRedis.TlsWrites | internal/webspace/traefik_redis.go:205-218 | entry point, TLS, main domain, certresolver only when configured, SANs by index |
| TraefikRedis.RoutesNoTls | internal/webspace/traefik_redis.go:116-190 | the routing part writes no TLS key |
| TraefikRedis.WrittenTls | internal/webspace/traefik_redis.go:205-218 | the written map holds the TLS keys, certresolver exactly when configured |
| TraefikRedis.PartKeys | internal/webspace/traefik_redis.go:116-204 | each routing part writes only keys ClearConfig deletes |
| TraefikRedis.SanKeysCleared | internal/webspace/traefik_redis.go:76-82 | the SAN keys written are among those deleted |
| TraefikRedis.TlsKeys | internal/webspace/traefik_redis.go:205-218 | the TLS part writes only keys ClearConfig deletes |
| TraefikRedis.ClearCoversGenerate | internal/webspace/traefik_redis.go:35-82 | every key GenerateConfig can write for an instance is deleted by ClearConfig for it, given the same SANs |
| TraefikRedis.ClearThenWrite | internal/webspace/traefik_redis.go:34-225 | after a clear and a write, the cleared keys hold exactly what was written and all other keys are untouched |
| TraefikRedis.ClearThenRegenerate | internal/webspace/traefik_redis.go:34-225 | clearing then regenerating leaves exactly the new configuration for the instance and nothing else changed |
| TraefikRedis.JoinRules | internal/webspace/traefik_redis.go:110-114 | the rule-building loop joins the terms with ` \|\| ` |
| TraefikRedis.RedisClient.constructor | internal/webspace/traefik_redis.go:24-31 | a new store is empty |
| TraefikRedis.TraefikRedis.constructor | internal/webspace/traefik_redis.go:24-31 | the writer keeps its settings and store |
| TraefikRedis.TraefikRedis.ClearConfig | internal/webspace/traefik_redis.go:34-89 | a failed transaction changes nothing; otherwise exactly the instance's clear set is deleted |
| TraefikRedis.TraefikRedis.GenerateConfig | internal/webspace/traefik_redis.go:92-225 | nothing is written when stopped without a daemon URL; a user or transaction failure writes nothing; otherwise the store gains exactly the written map |
| TraefikRedis.StageTls | internal/webspace/traefik_redis.go:205-218 | the TLS writes stage the TLS map |
| TraefikRedis.StageSans | internal/webspace/traefik_redis.go:211-216 | the SAN loop stages the SAN keys |
| TraefikRedis.WithSansSnoc | internal/webspace/traefik_redis.go:211-216 | staging one more SAN adds exactly its indexed key |
| Http.ErrResponse | webspaced/pkg/util/util.go:32-47 | the body carries the error's message; status 0 asks ErrToStatus |
| Http.ErrResponseByRoot | webspaced/pkg/util/util.go:40-42 | the status chosen for 0 is the table entry of the chain's sentinel |
| Http.BodyError | webspaced/pkg/util/util.go:51-59 | a body that does not decode is a 400 carrying the decoder's message |
| Http.ParseUint16RoundTrip | internal/server/endpoints.go:179-191 | the decimal text of every port parses back to it |
| Http.ParseUint16Range | internal/server/endpoints.go:179-191 | a parsed port is below 65536 and came from digits only |
| Http.ParsePortRequest | internal/server/endpoints.go:165-196 | explicit exactly when `ePort` is given, with a non-zero external port; implicit DELETE uses the port as both ports, implicit POST asks for a port to be chosen |
| Http.ExplicitPortRequest | internal/server/endpoints.go:165-196 | `/ports/e/i` parses to (e, i), and to a bad port for e = 0 |
| Http.ImplicitPortRequest | internal/server/endpoints.go:170-177 | `/ports/p` parses to (p, p) for DELETE and (0, p) otherwise |
| Http.BadPortRefused | internal/server/endpoints.go:179-191 | an unparsable port is a bad request |
| Http.ParseUint16Refuses | internal/server/endpoints.go:179-191 | empty, signed and out-of-range texts are refused, 65535 is accepted |
| Middleware.LeadingSpaces | internal/server/util.go:26 | the longest run of blanks at the front |
| Middleware.LeadingSpacesOf | internal/server/util.go:26 | blanks followed by a non-blank are counted exactly |
| Middleware.BearerToken | internal/server/util.go:26 | a match is `Bearer`, at least one blank, then a non-empty blank-free token, which is captured |
| Middleware.BearerTokenRoundTrip | internal/server/util.go:26 | every header of that shape yields its token |
| Middleware.BearerTokenRefuses | internal/server/util.go:26 | headers without blanks, with a missing token or with two words yield none |
| Middleware.ClaimsMiddleware | internal/server/util.go:36-57 | a non-matching header passes on anonymously; a token whose claims fail is a 401 and stops; otherwise the token and its claims pass on |
| Middleware.AuthMiddleware | internal/server/util.go:87-124 | no token is ErrTokenRequired, then a failed validation 403, then a non-admin on an admin route ErrAdminRequired; otherwise the looked-up user passes on |
| Middleware.AuthRefusesBeforeLookup | internal/server/util.go:87-108 | a refused request never depends on the user lookup |
| Middleware.AuthLooksUpOneUser | internal/server/util.go:110-113 | only the `username` variable's user, or "self", is looked up |
| Middleware.NoBearerNeedsToken | internal/server/util.go:36-108 | a request without a bearer token is refused as token required |
| Middleware.GetWebspaceMiddleware | internal/server/util.go:126-138 | the request goes on exactly when the user's instance is read and decodes; failures respond with an error status |
| Middleware.GetWebspaceHintHarmless | internal/server/util.go:126-135 | the hint it passes is the user itself, so the UID check never fails there |
| Middleware.GetWebspaceMissing | internal/server/util.go:126-138 | a missing instance is a 404 "failed to get LXD instance: not found" |
| Middleware.MissingMessage | internal/server/util.go:126-138 | the wrapped not-found message reads "failed to get LXD instance: not found" |
| Endpoints.ApiWebspacePorts | internal/server/endpoints.go:164-221 | a bad port is a 400 with nothing changed; an explicit POST is 201 with no body, an implicit one 201 with the port the allocator as written picks over an order the nested scan can meet the used ports in (webspace by webspace, each one's ports together), which is in range, and unused when that order is ascending; DELETE is 204 with exactly that port removed, or 404 |
| Endpoints.PostPortReply | internal/server/endpoints.go:200-211 | the POST branch: 201 with the added entry, the implicit port being the as-written allocator's pick over an order the nested scan can produce; a panic drops the request with nothing changed; failures are problem replies |
| Endpoints.StateActionOf | internal/server/endpoints.go:79-94 | exactly POST, PATCH, PUT and DELETE have an action |
| Endpoints.StateActionsDistinct | internal/server/endpoints.go:79-94 | different methods dispatch to different actions |
| Endpoints.SetStateReply | internal/server/endpoints.go:75-95 | 204 with no body exactly when the action succeeds, otherwise the action's error |
| Endpoints.SetStateErrorStatus | internal/server/endpoints.go:75-95 | a failed action answers ErrToStatus; not running is 404, running 409 |
| Endpoints.ApiUpdateWebspaceConfig | internal/server/endpoints.go:112-125 | a bad body is a 400 with nothing changed; otherwise the config is replaced and the reply carries the configuration as it was before |
| Endpoints.ApiCreateWebspace | internal/server/endpoints.go:41-64 | `ssh` for a user without a key creates nothing; a created webspace is the user's instance with a fresh record |
| DraftWebspace.SaveResult | webspaced/internal/webspace/webspace.go:159-185 | a save succeeds exactly when all four LXD steps do |
| DraftWebspace.NewRecord | webspaced/internal/webspace/webspace.go:407-413 | a new record has the defaults, no domains and no ports |
| DraftWebspace.Webspace.constructor | webspaced/internal/webspace/manager.go:187-205 | a webspace object holds its record |
| DraftWebspace.Webspace.AddDomain | webspaced/internal/webspace/webspace.go:188-223 | needs the `webspace:<user>` TXT record, then global uniqueness, then appends |
| DraftWebspace.Webspace.RemoveDomain | webspaced/internal/webspace/webspace.go:226-238 | swap-removes the first match, with no default-domain check; a missing one is not found |
| DraftWebspace.CheckAddPort | webspaced/internal/webspace/webspace.go:242-270 | the same checks in the same order as the current generation; for port 0 the used ports are in an order the nested scan can produce: webspace by webspace, each one's ports together |
| DraftWebspace.Webspace.AddPort | webspaced/internal/webspace/webspace.go:241-290 | the same check order, use check and as-written allocation as the current generation, over an order the nested scan can meet the used ports in |
| DraftWebspace.Webspace.RemovePort | webspaced/internal/webspace/webspace.go:293-300 | a missing port is not found; otherwise only that key goes |
| DraftPorts.PortsManager.constructor | webspaced/internal/webspace/ports.go:114-116 | a new manager has no forwards |
| DraftPorts.PortsManager.Add | webspaced/internal/webspace/ports.go:119-132 | a forwarded port is ErrUsed with nothing changed; otherwise exactly key `e` is added and listening |
| DraftPorts.PortsManager.Remove | webspaced/internal/webspace/ports.go:135-144 | a missing port is ErrNotFound; otherwise exactly key `e` goes |
| DraftPorts.PortsManager.Trim | webspaced/internal/webspace/ports.go:147-165 | a shared port fails with nothing removed; otherwise exactly the forwards no webspace uses go |
| DraftPorts.PortsManager.AddAll | webspaced/internal/webspace/ports.go:168-212 | the outcome is the current generation's `AddAllOutcome` without a Service: success exactly when every listener comes up, leaving the forwards as written with every hook of a stopped webspace sharing the last round's internal port; other ports are untouched; a port whose round ran listens exactly when it has a forward |
| DraftPorts.PortsManager.ReaddEach | webspaced/internal/webspace/ports.go:169-210 | the loop stops after the first failed listener, leaving the forwards and listeners of the rounds it ran |
| DraftPorts.PortsManager.Readd | webspaced/internal/webspace/ports.go:170-210 | one round fails with its listener's error, and the port has its own forward and listens exactly when the listener came up |
| DraftPorts.PortsManager.ShareLoopVariable | webspaced/internal/webspace/ports.go:174-192 | the hooks installed in the rounds run all dial the internal port the loop variable ended on |
| DraftPorts.ListeningAfterAt | webspaced/internal/webspace/ports.go:169-210 | after the rounds run, a port of the rounds listens exactly when its listener came up, any other as before |
| DraftPorts.ListeningFollowsForwards | webspaced/internal/webspace/ports.go:169-210 | a port whose round ran listens exactly when it has a forward |
| DraftPorts.PortsManager.Shutdown | webspaced/internal/webspace/ports.go:215-219 | stops every listener and leaves the forward map as it was |
| DraftManager.InstanceName | webspaced/internal/webspace/manager.go:87-89 | the name is the user name followed by the suffix |
| DraftManager.InstanceNameInjective | webspaced/internal/webspace/manager.go:87-89 | different users get different instance names |
| DraftManager.ClassifyGenerations | webspaced/internal/webspace/manager.go:125-161 | the two generations classify alike except "restarted", unknown in the older one |
| DraftManager.InstanceToWebspaceDecodes | webspaced/internal/webspace/manager.go:187-205 | a missing key is an error, a negative delay the older ErrBadValue, otherwise the stored record |
| DraftManager.InstanceToWebspaceRoot | webspaced/internal/webspace/manager.go:187-205 | a decoding failure has no sentinel or ErrBadValue at its root |
| DraftManager.Get | webspaced/internal/webspace/manager.go:251-264 | an LXD failure is converted and wrapped; otherwise the instance's record |
| DraftManager.GetAll | webspaced/internal/webspace/manager.go:267-286 | the records of all configured instances in order, or the first decoding failure |
| DraftManager.Manager.constructor | webspaced/internal/webspace/manager.go:23-40 | the manager keeps its suffix and forwards |
| DraftManager.Manager.OnLxdEvent | webspaced/internal/webspace/manager.go:96-185 | a matching event clears the config and trims, then regenerates for started, shutdown, created and updated; the forward table is unchanged until the trim or on a failed one, trimmed to the ports in use after it, and after `AddAll` holds the webspace's forwards as written when every listener comes up |
| DraftManager.Manager.Regenerate | webspaced/internal/webspace/manager.go:125-185 | regenerates only for the known running/stopped/query actions; `AddAll` keeps the other forwards and installs the webspace's as written when every listener comes up |
| DraftManager.NewRecord | webspaced/internal/webspace/manager.go:290-296 | a new record starts with the default domain `<user>.<domain>` and no ports |
| DraftManager.NewRecordsDiffer | webspaced/internal/webspace/manager.go:290-296 | it differs from the webspace package's new record only in that domain |
| DraftManager.NewRecordReadBack | webspaced/internal/webspace/manager.go:187-205 | a new record reads back exactly when its default delay is not negative |
| DraftManager.Create | webspaced/internal/webspace/manager.go:289-397 | the same boot, sshd and key-storing sequence as the current generation, with the older naming |
| DraftTraefik.TlsSettings | webspaced/internal/webspace/traefik.go:100-135 | the older settings carry over to the TLS writer |
| DraftTraefik.DraftClearWithinCurrent | webspaced/internal/webspace/traefik.go:37-67 | the older delete set is within the current one, apart from the HTTPS service URL |
| DraftTraefik.DraftWrittenRouting | webspaced/internal/webspace/traefik.go:85-98 | the rule joins `Host` terms over the stored domains; the backend is `http://addr:port` |
| DraftTraefik.DraftWrittenHttps | webspaced/internal/webspace/traefik.go:100-135 | HTTPS keys are written only for HTTPS port 0: the user's domain, certresolver only when configured, SANs by index |
| DraftTraefik.DraftClearCoversWrite | webspaced/internal/webspace/traefik.go:38-134 | every key written in the set phase is deleted in the delete phase |
| DraftTraefik.DraftTraefik.constructor | webspaced/internal/webspace/traefik.go:20-31 | the writer keeps its settings and store |
| DraftTraefik.DraftTraefik.UpdateConfig | webspaced/internal/webspace/traefik.go:34-142 | deletes the instance's keys first; writes nothing more when stopped, or after an IP or write failure; otherwise adds exactly the written map |
| DraftTraefik.DraftTraefik.DeleteKeys | webspaced/internal/webspace/traefik.go:37-67 | the delete phase removes exactly the delete set |
| DraftTraefik.DraftTraefik.StageWrites | webspaced/internal/webspace/traefik.go:85-135 | the set phase stages exactly the written map |
| DraftServer.WsErrorToStatus | webspaced/internal/server/endpoints.go:50-62 | every error maps to 400, 404, 409 or 500 |
| DraftServer.WsErrorToStatusByRoot | webspaced/internal/server/endpoints.go:50-62 | not found/not running 404, exists/running/used 409, the four validation errors 400, anything else 500 |
| DraftServer.StatusGenerations | webspaced/internal/server/endpoints.go:50-62 | the generations agree on every webspace error except the bad value, 500 in the older one and 400 in the current |
| DraftServer.DraftErrResponse | webspaced/internal/server/server.go:61-67 | `{"message": err.Error()}` with the given status |
| DraftServer.ErrResponseGenerations | webspaced/internal/server/server.go:61-67 | it agrees with the current reply for an explicit status |
| DraftServer.ApiNotFound | webspaced/internal/server/server.go:207-209 | an unknown route is a 404 "API endpoint not found" |
| DraftServer.ApiNotFoundGenerations | webspaced/internal/server/server.go:207-209 | the current generation answers the same |
| DraftServer.GetWebspaceMiddleware | webspaced/internal/server/endpoints.go:64-76 | goes on exactly when `Get` succeeds; otherwise answers with wsErrorToStatus |
| DraftServer.GetWebspaceMissing | webspaced/internal/server/endpoints.go:64-76 | a missing instance is a 404 |
| DraftServer.GetWebspaceUndecodable | webspaced/internal/server/endpoints.go:64-76 | an undecodable instance is a 500 |
| DraftServer.UserMiddleware | webspaced/internal/server/server.go:82-115 | the name is the looked-up one or `u<uid>`; the header replaces it only for admin-group members or uid 0 and only when non-empty |
| DraftServer.OnlyAdminsImpersonate | webspaced/internal/server/server.go:96-109 | a request acts as someone else exactly when an admin-group member or root names another user in the header; anyone else is always themselves |
| DraftServer.FallbackNames | webspaced/internal/server/server.go:87-94 | different uids fall back to different names |
| DraftServer.ApiWebspacePorts | webspaced/internal/server/endpoints.go:177-234 | the same parsing, allocation and replies as the current endpoint, with the older status table; the implicit port is the as-written pick over an order the nested scan can produce |
| DraftServer.PostPort | webspaced/internal/server/endpoints.go:213-224 | an explicit port is 201 with no body, an implicit one 201 with the port the allocator as written picks over an order the nested scan can produce, in range, and unused when that order is ascending; failures map through the older status table |
| DraftServer.DeletePort | webspaced/internal/server/endpoints.go:225-232 | 204 with exactly that port removed, 404 for a port the webspace lacks |
| PwGrWire.LittleEndian32 | webspaced/internal/server/pw_gr_proxy.go:22 | the uid takes four bytes |
| PwGrWire.Uint32RoundTrip | webspaced/pw_gr_proxy.c:54 | reading back the four bytes gives the uid |
| PwGrWire.BytesRoundTrip | webspaced/pw_gr_proxy.c:54 | every four bytes are the encoding of the value they hold |
| PwGrWire.GetPwUidRequest | webspaced/internal/server/pw_gr_proxy.go:42-46 | the request is five bytes starting with type 0 |
| PwGrWire.MemberRequest | webspaced/internal/server/pw_gr_proxy.go:70-75 | the request is type 1 and `len(user)+len(group)+3` bytes long |
| PwGrWire.NameReply | webspaced/pw_gr_proxy.c:68-72 | a name reply is RES_OK followed by the name, with no terminator |
| PwGrWire.MemberReply | webspaced/pw_gr_proxy.c:95-97 | a membership reply is RES_OK and 1 exactly for a member |
| PwGrWire.GetPwUidRequestRoundTrip | webspaced/pw_gr_proxy.c:49-54 | the daemon reads the uid the client wrote |
| PwGrWire.NulFrom | webspaced/pw_gr_proxy.c:74-75 | `strlen` finds the first NUL from a position, or none in the buffer |
| PwGrWire.NulFromAfter | webspaced/pw_gr_proxy.c:74-75 | a NUL with none before it is the one found |
| PwGrWire.ParseEncode | webspaced/pw_gr_proxy.c:47-75 | parsing a request the client built recovers the uid, or the user and group exactly |
| PwGrWire.ParseSound | webspaced/pw_gr_proxy.c:47-75 | a parsed request's encoding is the start of the packet, and all of it for a uid lookup |
| PwGrServer.Received | webspaced/pw_gr_proxy.c:36-44 | an error or empty packet ends the request; at most the buffer's size arrives |
| PwGrServer.HandleReq | webspaced/pw_gr_proxy.c:35-103 | the step-by-step handler answers as the as-written definition over the stale buffer: a failed or empty receive gets no reply, and a name whose status byte, text and NUL overflow the buffer is undefined |
| PwGrServer.Strlen | webspaced/pw_gr_proxy.c:75 | the scan stops at the first NUL |
| PwGrServer.CopyName | webspaced/pw_gr_proxy.c:68-69 | `strcpy` leaves RES_OK and the name followed by its NUL at the front of the buffer, and the bytes after the NUL as they were |
| PwGrServer.Contains | webspaced/pw_gr_proxy.c:87-93 | the `gr_mem` loop finds the user exactly when it is a member |
| PwGrServer.AsWrittenAgrees | webspaced/pw_gr_proxy.c:47-102 | for well-formed packets and non-membership packets the handler answers as intended, whatever the stack held |
| PwGrServer.StaleBytesDecide | webspaced/pw_gr_proxy.c:74-75 | the unterminated packet `[1, 'r']` gets different answers depending on earlier stack contents |
| PwGrServer.ServeLookup | webspaced/pw_gr_proxy.c:48-72 | a lookup answers RES_OK and the name without its NUL, or a single RES_ERR for an unknown uid; a name that does not fit the buffer with its NUL is undefined |
| PwGrServer.ServeMembership | webspaced/pw_gr_proxy.c:73-99 | a membership query answers whether the user is in the group, or RES_ERR for an unknown group |
| PwGrProxy.Reply | webspaced/internal/server/pw_gr_proxy.go:50-54 | a reply is at least one and at most 4096 bytes |
| PwGrProxy.LookupUID | webspaced/internal/server/pw_gr_proxy.go:35-60 | dial and write errors are returned; a reply that is not RES_OK is an error; otherwise the bytes after the status are the name |
| PwGrProxy.UserIsMember | webspaced/internal/server/pw_gr_proxy.go:63-92 | the packet is the member request; a non-OK reply is an error; otherwise true exactly when the second byte is 1 |
| PwGrProxy.PutUint32 | webspaced/internal/server/pw_gr_proxy.go:44 | writes the little-endian uid and nothing else |
| PwGrProxy.Copy | webspaced/internal/server/pw_gr_proxy.go:72-73 | copies the name into the zeroed buffer, leaving its terminator |
| PwGrProxy.Read | webspaced/internal/server/pw_gr_proxy.go:51 | the reply overwrites the front of the buffer and the rest keeps the request |
| PwGrProxy.DecodesReplies | webspaced/internal/server/pw_gr_proxy.go:56-91 | name and membership replies decode to what the daemon put in them; RES_ERR is an error |
| PwGrProxy.LookupAgainstDaemon | webspaced/internal/server/pw_gr_proxy.go:35-60 | against the daemon, a lookup yields the user's name exactly when the uid is known |
| PwGrProxy.MembershipAgainstDaemon | webspaced/internal/server/pw_gr_proxy.go:63-92 | against the daemon, a query yields the true membership exactly when the group is known |
| Cli.FirstDecided | cli/webspace_cli/commands.py:46-56 | the answer comes from the first line that decides one, after lines that did not; no answer means every line was rejected |
| Cli.Ask | cli/webspace_cli/commands.py:26-56 | a default other than yes, no or none raises ValueError; otherwise the prompt loop answers as the first deciding line |
| Cli.AskLines | cli/webspace_cli/commands.py:47-56 | the prompt loop answers as the first line that decides, under a valid default |
| Cli.FirstDecidedStep | cli/webspace_cli/commands.py:47-56 | a deciding line ends the loop with its answer; any other line passes to the next |
| Cli.AskAnswers | cli/webspace_cli/commands.py:36-37 | yes, y and ye in any case say yes; no and n say no |
| Cli.AskEmptyLine | cli/webspace_cli/commands.py:49-52 | an empty line answers the default, or asks again without one |
| Cli.AliasIndex | cli/webspace_cli/commands.py:75-79 | the first image with the alias |
| Cli.FingerprintIndex | cli/webspace_cli/commands.py:81-84 | the first image with the fingerprint |
| Cli.FindImagePasses | cli/webspace_cli/commands.py:72-85 | the two-pass loop returns the first alias match, else the first fingerprint match, else none |
| Cli.AliasFirst | cli/webspace_cli/commands.py:72-85 | an alias match anywhere wins over any fingerprint match |
| Cli.Headers | cli/webspace_cli/commands.py:93-95 | `X-Webspace-User` is sent exactly when a non-empty user is set |
| Cli.ReqFailure | cli/webspace_cli/commands.py:98-102 | an error status raises the body's message, or the HTTP error without one; it never returns |
| Cli.ReqSuccess | cli/webspace_cli/commands.py:104-105 | 204 returns nothing, other statuses the decoded body |
| Cli.Init | cli/webspace_cli/commands.py:132-149 | an unknown image or a mismatched confirmation raises before sending; otherwise the body carries the image's fingerprint, the password unless disabled, and `sshKey` |
| Util.SwapRemoveContents | internal/webspace/webspace.go:320-330 | swap-removal shrinks the list by one, drops one copy of the removed element and keeps every other position before the end |
| Util.SortedUnique | internal/webspace/webspace.go:365-376 | a multiset has one ascending arrangement, so sorting already ascending ports changes nothing |
| Util.DecimalRoundTrip | internal/webspace/manager.go:235-267 | `strconv.Atoi` of `strconv.Itoa(n)` is `n` |

## Left out

- LXD, DNS, IAM, Redis, Kubernetes, sockets and `rand.Int31n` are not called. Their answers are parameters, and a save is a function of its replies.
- JSON encoding and decoding of records, request bodies and responses is left out. A stored record is either the record it decodes to or a decoding failure. The IAM-error unwrapping in `JSONErrResponse` is left out.
- Concurrency is left out: port-forward goroutines, per-user locks, `syncAll`, the LXD listener loop, `AwaitIP` and the older Traefik IP retry.
- Floating point: the startup delay is only checked for its sign, and `EnsureStarted`'s sleep is not modelled.
- The Kubernetes Traefik providers, the websocket console, configuration loading, startup, route tables and the generated client models are left out. The Kubernetes providers build API objects; the rest is I/O and wiring.
- `webspaced/passwd_groups_server.c` is not part of this model. It is a superseded draft of the proxy daemon.
- The GUI is not part of this model: it holds markup, routing tables and form declarations only.
- Go map iteration order is a parameter: the order a `range` meets a map's keys in is a sequence holding each key once (`Ports.RangeOrder`, and each webspace's group in `Lookups.ScanOrder`). Which order the runtime picks is not modelled. The forward tables are maps.
- DraftManager.InstanceName: the older tree mixes versions. `webspaced/internal/webspace/webspace.go:79-86` builds the name from a configured template and can fail; `webspaced/internal/webspace/manager.go:87-89` builds it from the user name and suffix; `webspaced/internal/webspace/traefik.go:35` calls `InstanceName()` as if it had one result. The template appears in none of the files, so the model uses the user name and suffix, and the template's failure is not modelled.
- Errors.ErrToStatus: proved per sentinel for chains that hold one sentinel at the bottom. The first-match rule among several sentinels in one chain (errors joined or wrapped twice) is not modelled.
- Errors.Text: the texts of `ErrSSHKey` and of the older package's bad-value and default-domain sentinels appear in no file. The model uses the current texts, and `ErrSSHKey` has an empty text.
- Cli.Ask: lower-casing covers ASCII letters only, not Unicode case folding.
- Webspace.Webspace.AddPort: `rand.Int31n` panicking on an exhausted range is reported as a flag, not as a crash.
- PwGrProxy.UserIsMember: Go's slice panic for names longer than the buffer is reported as an error value.
- PwGrServer.HandleReq: reads and writes outside the stack buffer are reported as `Undefined`, not modelled further.
- Manager.Manager.OnLxdEvent: the side effects are a list of steps; their logging is left out.
- Manager.ParseSource: the instance prefix is matched as literal text. The source splices it into the event-source regular expression unquoted, so a prefix holding `.`, `+` or another metacharacter would act as a pattern there.
- Ports.PortsManager.Add: each Kubernetes Service update runs inside `retry.RetryOnConflict`; the model takes one final answer per update (`K8sReply`), so the retries on conflict are not modelled.
- Ports.PortsManager.Remove: the same single final answer stands for the retried Service update.
- Manager.Manager.React: the Kubernetes Service list after a successful trim or re-add is not stated, only the forward table; it is unchanged when nothing or only the failed trim ran.
- Ports.PortsManager.Readd: one round installs a hook that reads the loop variable, which still holds the round's own internal port. The later rounds overwrite that variable; the model applies this once, when the loop ends, in `Ports.PortsManager.ShareLoopVariable`, which `AddAll` calls after `ReaddEach`. The Findings table has the resulting misroute.
- DraftPorts.PortsManager.Readd: the same, with `DraftPorts.PortsManager.ShareLoopVariable`.
- The proxy daemon's socket setup, signal handling and `select` loop are left out. They are I/O.

## Findings

| source | as written | input that shows it | evidently intended | confidence | as-written member | corrected member |
|---|---|---|---|---|---|---|
| internal/webspace/webspace.go:352-376 | the implicit allocator collects used ports in map iteration order and pushes the drawn port past them without sorting; the skip is collision-free only on ascending input | range 1000-1010, used ports visited as [1002, 1001], draw 1: 1001 is returned, and it is in use | sort the used ports before the skip loop, so the result is in range and unused | not executed | PortAllocation.AllocateAsWrittenReusesPort | PortAllocation.AllocateSound |
| internal/webspace/ports.go:277-304 | `AddAll` ranges over the ports with `for e, i := range`; the hook closure of a stopped webspace captures `i`, and before Go 1.22 (the module still imports `go-redis/v7` and `jwt-go/v4`) every round shares that one variable, so each hook dials the internal port of the last round run. The older tree has the same loop at webspaced/internal/webspace/ports.go:169-212 | a stopped webspace forwarding 8080 to 80 and 2222 to 22, met in that order, every listener up: the hook on 8080 starts the webspace and dials port 22 | copy `i` inside the loop, so each port's hook dials its own internal port | not executed | Ports.SharedHookMisroutes | Ports.ForwardsAfterRun |
| webspaced/pw_gr_proxy.c:74-75 | the user and group names are found by `strlen` over the whole 64 KiB stack buffer, not over the `n` received bytes, so a packet without its terminators is read on into stale stack bytes | the packet `[1, 'r']`: over a zeroed buffer it is answered RES_ERR; over a buffer still holding `'g', 0` at offsets 3-4 it is answered "not a member" of group `g` | bound the scans by `n` and ignore a membership request whose names are not both terminated inside the packet | not executed | PwGrServer.StaleBytesDecide | PwGrServer.ServeMembership |
